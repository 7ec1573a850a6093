# Skull King Tracker: the OAuth callback and its stores, in Dafny

This project models the back end of the Skull King score tracker. The model is
centred on the OAuth callback, which turns a provider's answer into an
application user. The callback has three ways to do that:

- it links the provider account to the signed-in user;
- it logs in the owner of an identity that already exists;
- it adopts the user whose e-mail matches, or registers a new user with a
  generated, sanitised username.

All of this happens inside one database transaction. The transaction is rolled
back on any failure and committed after the session cookie is written and the
browser is redirected.

Around the callback the project models:

- the stores it calls: users, provider identities, games, guest players,
  game players, game sessions, friendships and statistics;
- the database helpers: NULL strings, the stats-privacy check and the
  unique-violation mapping;
- the username generator;
- the API converters;
- the shared handler helpers: replies, required fields, query parameters,
  pagination, the session user, and the game access check;
- the handlers that use them: the current user and link initiation, profile
  and search, theme, profile update and unlinking, game creation and adding
  a player;
- the web client's avatar-URL and error-text helpers.

How it is modelled:

- The database is a `Tables.Database` class. Each table is a sequence field
  holding its rows in storage order. Its `Valid()` invariant holds two kinds
  of conjunct:
  - schema constraints: the primary keys, the unique constraints on users,
    provider identities and game seats, and the reference from an identity
    to its user;
  - an invariant the code maintains without a schema constraint: guest
    display names are distinct, because guests are only ever added by
    find-or-create on the name.

  An open transaction keeps the snapshot it started from, so a rollback
  restores it.
- Every store operation and handler has two parts:
  - a specification function from a `Snapshot` (with the request, the
    faults the database may report, and the generated ids and clock) to the
    new tables and the reply;
  - a method on the database that performs the source's steps (begin,
    statements, commit or rollback) and is proved to have exactly that
    outcome.
- Properties of the specifications are lemmas, mostly in `AuthProperties`
  for the callback.
- Database failures are `Option<DbError>` parameters, one per statement. A
  parameter of `Some(e)` makes that statement fail with `e`. Constraint
  violations are not parameters: they follow from the tables.
- Generated UUIDs, `time.Now()`, the random username suffix, the RFC 3339
  formatting, the order Go visits a map in, and whether a session cookie
  loads or saves are also parameters.
- HTTP replies are values: `Json(status, body)` or `Redirect(url)`.

## Model

| member | source | states |
|---|---|---|
| AuthHandlers.LinkingFlowIff | backend/internal/handlers/auth.go:188-205 | a callback is a linking flow exactly when both session flags are non-empty strings and the provider flag equals the calling provider |
| AuthHandlers.DetectIntent | backend/internal/handlers/auth.go:178-237 | the intent is linking iff the flags describe a linking flow; then the target user is the flagged user (non-empty) and the redirect is the settings page, otherwise there is no target and the redirect is the front-end base |
| AuthHandlers.ClearLinkingFlags | backend/internal/handlers/auth.go:214-216 | deleting both linking keys leaves no flag and keeps every other key with its value |
| AuthHandlers.EarlyValues | backend/internal/handlers/auth.go:193-237 | flags that are present are always removed, whether they matched or not; without both flags the session values are unchanged |
| AuthHandlers.IdentityFor | backend/internal/handlers/auth.go:343-356 | the new identity record is bound to the given application user and carries the reporting provider and the provider's user id |
| AuthHandlers.BaseUsername | backend/internal/handlers/auth.go:435-439 | the base of a new username is the provider nickname, or the name when the nickname is empty |
| AuthHandlers.UserFor | backend/internal/handlers/auth.go:432-452 | a registered user gets the generated username, which is well formed and not blank; an empty e-mail is stored as NULL and the stats privacy is left to the store's default |
| AuthHandlers.FinishLink | backend/internal/handlers/auth.go:378-385 | re-reading the linking user succeeds iff the read does not fail and the user exists; otherwise it is a 500 with the link-fetch message, and the tables stay as they are |
| AuthHandlers.LinkEffect | backend/internal/handlers/auth.go:308-385 | the linking branch never changes the users table and always resolves to the target user; a success implies the target user exists |
| AuthHandlers.AttachIdentity | backend/internal/handlers/auth.go:483-504 | binding an identity to the matched user keeps the users table, resolves to that user and, on success, puts that user in the session |
| AuthHandlers.RegisterEffect | backend/internal/handlers/auth.go:432-480 | the registration result is well formed, and on success the application user is the freshly generated user id |
| AuthHandlers.FinishRegister | backend/internal/handlers/auth.go:473-504 | once the user row is in, reading it back and binding the identity gives a well-formed result whose application user, on success, is the new user |
| AuthHandlers.NewIdentityEffect | backend/internal/handlers/auth.go:399-504 | for an account without an identity, a successful result names an existing user or the fresh user id |
| AuthHandlers.ReturningLoginEffect | backend/internal/handlers/auth.go:506-528 | a returning login keeps the users table, resolves to the identity's owner and succeeds only if the owner exists |
| AuthHandlers.LoginEffect | backend/internal/handlers/auth.go:387-529 | the login or registration branch ends resolved, naming an existing user or the fresh user id on success |
| AuthHandlers.ResolveUserEffect | backend/internal/handlers/auth.go:301-530 | step 4 ends resolved: on success the session user is a row of the users table and is the application user, which existed before or is the fresh id |
| AuthHandlers.LoginValues | backend/internal/handlers/auth.go:559-581 | the session written at login holds the user id and the shown name, holds no linking flag, and keeps every other value |
| AuthHandlers.FinalRedirect | backend/internal/handlers/auth.go:604-615 | the redirect gets a trailing slash exactly when it is the bare front-end address with no slash, no query and no dashboard or settings ending; otherwise it is kept |
| AuthHandlers.FinishLogin | backend/internal/handlers/auth.go:559-615 | steps 6 and 7 fail exactly when the session cannot be loaded or saved; a failure is a single JSON error, a success writes the login values, saves them and sends one redirect; the tables are not touched |
| AuthHandlers.CallbackBodyEffect | backend/internal/handlers/auth.go:301-615 | steps 4 to 7 always send one reply, which is a redirect iff nothing failed; every session written has no linking flag and a success saves it |
| AuthHandlers.LateReply | backend/internal/handlers/auth.go:264-292 | the deferred function adds at most one reply, and adds one exactly when no response was written |
| AuthHandlers.OAuthCallback | backend/internal/handlers/auth.go:133-616 | the whole callback sends at least one reply; its detailed properties are the AuthProperties lemmas |
| AuthHandlers.LinkProvider | backend/internal/handlers/auth.go:308-385 | the linking branch run on the database keeps the table invariants and has exactly the outcome LinkEffect gives |
| AuthHandlers.AttachIdentityTo | backend/internal/handlers/auth.go:483-504 | attaching the identity on the database keeps the invariants and has exactly the outcome AttachIdentity gives |
| AuthHandlers.RegisterUser | backend/internal/handlers/auth.go:432-480 | registration on the database keeps the invariants and has exactly the outcome RegisterEffect gives |
| AuthHandlers.LinkNewIdentity | backend/internal/handlers/auth.go:399-504 | the e-mail match or registration on the database has exactly the outcome NewIdentityEffect gives |
| AuthHandlers.LoginOrRegister | backend/internal/handlers/auth.go:387-529 | the login branch on the database has exactly the outcome LoginEffect gives |
| AuthHandlers.ResolveUser | backend/internal/handlers/auth.go:301-530 | step 4 on the database has exactly the outcome ResolveUserEffect gives |
| AuthHandlers.CallbackBody | backend/internal/handlers/auth.go:301-615 | steps 4 to 7 on the database and the session object give exactly the tables, values, saved cookie and replies CallbackBodyEffect describes |
| AuthHandlers.WriteLoginSession | backend/internal/handlers/auth.go:559-615 | steps 6 and 7 on the session object give exactly the values, saved cookie and replies FinishLogin describes |
| AuthHandlers.CallbackTransaction | backend/internal/handlers/auth.go:251-615 | inside the open transaction the session ends as steps 4 to 7 leave it; after a panic, a recorded error or a failed commit the tables are those the transaction started from and a 500 is added when nothing was written; otherwise the tables are those steps 4 to 7 leave and the replies are theirs |
| AuthHandlers.HandleOAuthCallback | backend/internal/handlers/auth.go:133-616 | the handler leaves no transaction open, keeps the invariants, and gives exactly the tables, session, cookie and replies OAuthCallback describes |
| AuthHandlers.InitiateLink | backend/internal/handlers/auth.go:69-116 | the browser is redirected to the provider iff the session loads, names a user, the provider is named and the save succeeds; then both linking flags are set to the user and the provider; without a session user the reply is the 401 of the session helper |
| AuthHandlers.HandleInitiateLink | backend/internal/handlers/auth.go:69-116 | the handler on the session object gives exactly the values, cookie and replies InitiateLink describes |
| AuthHandlers.GetCurrentUser | backend/internal/handlers/auth.go:632-688 | the reply is 200 with the session's user iff the session loads, names a user, the read succeeds and the user exists; a missing session or an unknown user is 401, anything else 500 |
| AuthProperties.ProviderMismatchTouchesNothing | backend/internal/handlers/auth.go:156-164 | a provider that differs from the URL's gets a 400 and nothing else: tables, session and cookie unchanged, whatever would have failed later |
| AuthProperties.LinkingFlagsAreCleared | backend/internal/handlers/auth.go:214-216 | past the provider check, flags that were present never survive, no cookie written carries them, and a redirect always comes with the saved values |
| AuthProperties.RelinkOnlyRefreshes | backend/internal/handlers/auth.go:313-326 | relinking an account the target already owns creates no user and no identity; a failed refresh is a 500; otherwise only the identity's details are refreshed, and the result depends only on re-reading the user |
| AuthProperties.LinkToOtherOwnerIsConflict | backend/internal/handlers/auth.go:328-341 | linking an account owned by another user is a 409 naming the provider, and nothing changes |
| AuthProperties.LinkAbsentCreatesForTarget | backend/internal/handlers/auth.go:343-367 | an account with no identity is bound to the target: exactly one identity row for the target is added unless the insert fails, the target already has that provider (409) or does not exist |
| AuthProperties.LinkLookupErrorIsFatal | backend/internal/handlers/auth.go:369-376 | any other failure of the identity lookup in a linking flow is a 500 and nothing changes |
| AuthProperties.ReturningLoginNamesOwner | backend/internal/handlers/auth.go:506-528 | a returning login resolves to the identity's owner, creates no user and no identity, and succeeds iff the owner can be read, putting that user in the session |
| AuthProperties.EmailMatchAdoptsUser | backend/internal/handlers/auth.go:407-431 | a new account whose non-blank e-mail names a user adopts that user: no user is created and exactly one identity bound to it is added, unless the insert is refused |
| AuthProperties.NoMatchRegistersOneUser | backend/internal/handlers/auth.go:432-504 | with no identity and no e-mail match, exactly the generated user row is inserted, or nothing and a failure (409 for a username or e-mail in use); when nothing fails that user is the session user and exactly one identity is bound to it |
| AuthProperties.NoMatchIsRegistration | backend/internal/handlers/auth.go:399-432 | with no identity and no e-mail match, step 4 is exactly the registration |
| AuthProperties.RegistrationAddsOneUser | backend/internal/handlers/auth.go:432-480 | registration inserts exactly the generated row or fails leaving both tables unchanged; a username or e-mail in use is a 409 |
| AuthProperties.RegistrationBindsIdentity | backend/internal/handlers/auth.go:432-504 | when no statement fails, the registered user is the session user and exactly one identity bound to it is added |
| AuthProperties.IdentityLookupComesFirst | backend/internal/handlers/auth.go:305 | when the identity lookup fails or finds the account, or the flow is a link, the e-mail lookup, the user insert and the fresh user id have no influence and no user is created; a failed lookup at login is a 500 |
| AuthProperties.FailedResolutionRollsBack | backend/internal/handlers/auth.go:239-299 | a failure in step 4 is the only reply and the tables are as they were before the callback |
| AuthProperties.SuccessfulCallback | backend/internal/handlers/auth.go:239-616 | when step 4 succeeds and the cookie loads and saves, the session is written for the resolved user and the browser redirected; the tables change only when there is no panic and the commit succeeds, otherwise a late 500 follows the redirect |
| AuthProperties.ChangesOnlyWhenCommitted | backend/internal/handlers/auth.go:239-299 | the tables change only through a committed callback with no failure, and such a callback sends exactly the redirect |
| AuthProperties.LastLoginFailureIsIgnored | backend/internal/handlers/auth.go:545-557 | a failed last-login update changes none of the replies, session values or cookie |
| AuthProperties.BodyIgnoresLastLogin | backend/internal/handlers/auth.go:545-557 | steps 4 to 7 send the same replies and write the same session whatever the last-login update did |
| AuthProperties.ResolveIgnoresLastLogin | backend/internal/handlers/auth.go:301-530 | step 4 does not depend on the last-login fault |
| AuthProperties.CommitFailureLeavesDanglingSession | backend/internal/handlers/auth.go:583-616 | when the commit after a registration fails, the client still receives the redirect and a cookie naming a user that is not in the tables |
| AuthProperties.LoggedServerFaultRollsBack | backend/internal/handlers/auth.go:545-616 | when a server-side failure of the last-login update aborts the transaction, so that the commit fails, the tables are rolled back while the client still receives the redirect, a 500 and a cookie naming the resolved user |
| AuthProperties.CallbackThenCurrentUser | backend/internal/handlers/auth.go:632-688 | after a committed callback, the cookie it wrote makes the current-user endpoint answer 200 with the resolved user |
| AuthProperties.InitiatedLinkIsHonoured | backend/internal/handlers/auth.go:101-105 | a session prepared by link initiation makes the callback of that provider, and only that one, a linking flow for the signed-in user with the settings redirect |
| ConvertUser.OptionalText | backend/internal/models/convert/user.go:19-38 | a valid nullable column becomes a present JSON field carrying the same text, and NULL becomes an absent one |
| ConvertUser.OptionalRoundTrip | backend/internal/models/convert/user.go:19-38 | converting a scanned nullable column to an optional field and back loses nothing |
| ConvertUser.NullStringIsOptional | backend/internal/database/utils.go:16-24 | storing a text with NullString and converting it back gives absent for "" and the text otherwise |
| ConvertUser.DBUserToAPIUser | backend/internal/models/convert/user.go:11-49 | a nil user is an error with the nil-user message; otherwise every column is copied, each nullable column is present iff it is valid and carries its text, the last login is formatted, and the avatar source is never set |
| ConvertUser.ApiUserKeepsUserText | backend/internal/models/convert/user.go:11-49 | every nullable text column of a scanned user can be read back unchanged from its API user |
| ConvertUser.DBProviderIdentityToLinkedAccount | backend/internal/models/convert/user.go:51-72 | a nil identity is an error; otherwise the linked account has the provider name, and each optional provider detail is present iff the column is valid, with its text |
| DbUtils.NullString | backend/internal/database/utils.go:16-24 | the stored value is valid exactly when the text is not empty, and keeps the text |
| DbUtils.IsValidStatsPrivacy | backend/internal/database/utils.go:27-34 | a privacy value is accepted iff it is one of public, friends_only and private |
| DbUtils.HandlePgError | backend/internal/database/utils.go:67-86 | an error is handled iff it is a unique violation; a handled one becomes the error mapped to its constraint, or a data conflict carrying the detail when the constraint is not mapped; any other error comes back unhandled, wrapped as a database error |
| DbUtils.HandledSentinelNamesConstraint | backend/internal/database/utils.go:67-86 | when every mapping is a named sentinel, getting a sentinel back means a unique violation on a mapped constraint occurred, and the sentinel is that constraint's |
| FriendshipConvert.DBFriendshipStatusToAPIStatus | backend/internal/models/convert/friendship.go:8-25 | the API status is unknown exactly for the statuses that do not name a relationship between two users (self among them), and never self or not-authenticated |
| FriendshipConvert.NamedStatusesStayDistinct | backend/internal/models/convert/friendship.go:8-25 | the six relationship statuses map to six different API statuses |
| FriendshipConvert.DirectedStatusesFromViewerRow | backend/internal/models/convert/friendship.go:8-25 | through the viewer's query, pending is sent-to-profile iff the viewer requested it and sent-to-viewer iff the profile's user did; blocked is by-profile-user iff the viewer requested it and by-viewer iff the profile's user did |
| FriendshipStore.GetFriendshipStatus | backend/internal/database/friendship.go:42-128 | empty ids are an error; the same id twice is self; an accepted row is friends; no row or a declined row is not friends; pending and blocked rows are directed by who requested them; an error comes exactly with no status or the unknown status |
| FriendshipStore.StatusIsSymmetric | backend/internal/database/friendship.go:42-128 | asking about the two users the other way round over the same row gives the mirrored status |
| FriendshipStore.FindFriendshipRow | backend/internal/database/friendship.go:62-78 | the row found links the two users in either direction; when none is found no row of the table links them |
| FriendshipStore.QueryFriendship | backend/internal/database/friendship.go:62-78 | a failed query is reported as such; a row returned is in the table and links the two users either way round; with a working query no row comes back exactly when no row links them |
| FriendshipStore.TableRowsAreConsistent | backend/internal/database/friendship.go:42-128 | a working query over a table of known status texts never reports an inconsistent pending or blocked state |
| FriendshipStore.AcceptedFriendships | backend/internal/database/friendship.go:16-39 | the count is at most the number of rows, and zero iff no row is an accepted friendship of the user |
| FriendshipStore.CountFriends | backend/internal/database/friendship.go:16-39 | the count fails exactly when the query fails; otherwise it is zero iff the user has no accepted friendship on either side |
| FriendshipStore.AcceptingCountsForBoth | backend/internal/database/friendship.go:16-39 | recording one accepted friendship adds exactly one friend to each of its two users |
| FrontendUtils.AssetBase | frontend/src/lib/utils.ts:22-23 | an unset asset base is the empty base; a set one is used as it is |
| FrontendUtils.GetFullAvatarURL | frontend/src/lib/utils.ts:13-24 | null, undefined and "" give ""; a path starting with http:// or https:// is kept; any other path is appended to the asset base |
| FrontendUtils.PathEndsTheUrl | frontend/src/lib/utils.ts:13-24 | the path always ends the URL given, and the URL is empty only for an empty path |
| FrontendUtils.FullUrlIsIdempotent | frontend/src/lib/utils.ts:13-24 | with an empty or absolute asset base, putting a URL through the helper again changes nothing |
| FrontendUtils.RelativeBaseGrowsAgain | frontend/src/lib/utils.ts:19-23 | for any non-empty asset base and relative path, a URL that is still relative after one pass gets the base added again on a second pass, and a root-relative base such as "/assets" always does, so the helper must not be applied twice |
| FrontendUtils.ErrorExtract | frontend/src/lib/utils.ts:9-11 | an Error gives its message, any other thrown value gives the default text |
| Http.Respond | backend/internal/handlers/utils.go:30-52 | the envelope has the given status and message; success is exactly a 2xx status; on a failure status a text or error payload moves into the error field and the data becomes empty |
| Http.ErrorResponse | backend/internal/handlers/utils.go:55-57 | an error reply has the given status and message and no data, and is a success only for a 2xx status |
| GameStore.NullablePointer | backend/internal/database/game.go:51-54 | a nil pointer and a pointer to "" are NULL; any other text is stored as itself |
| GameStore.NewGameRow | backend/internal/database/game.go:41-65 | the inserted game carries the new id, creator, status and seating flag; its session is NULL unless a non-empty session id is given, its scorekeeper NULL exactly for an empty one; no starting dealer, no completion, both timestamps now |
| GameStore.NewPlayerRow | backend/internal/database/game.go:135-160 | the inserted seat carries the new id, the game and the seating order; its user and guest are each NULL unless a non-empty id is given; the final score is 0 and there is no finishing position |
| GameStore.FindGame | backend/internal/database/game.go:179-206 | the game found is a row with that id, and none is found exactly when no row has the id |
| GameStore.GetGameByID | backend/internal/database/game.go:179-206 | the read succeeds iff the query works and a game has that id, returning that row; otherwise it is game-not-found, or the driver's error |
| GameStore.CreateGameEffect | backend/internal/database/game.go:19-75 | an insert that works returns the new id and appends exactly one row; a failed one is a database error and leaves the table unchanged |
| GameStore.CreatedGameReadsBack | backend/internal/database/game.go:19-75 | after a successful insert the table keeps its key and the new game reads back with the creator, status and seating flag given, the session id NULL iff nil or empty, the scorekeeper NULL iff empty, no starting dealer, not completed, and both timestamps the insertion time |
| GameStore.CreateGame | backend/internal/database/game.go:19-75 | the method keeps the table invariants and has exactly the result and table CreateGameEffect gives |
| GameStore.FindGuestByName | backend/internal/database/game.go:86-93 | the guest found has that display name; none is found iff no guest has it |
| GameStore.FindOrCreateGuestEffect | backend/internal/database/game.go:78-116 | an existing guest of that name is returned and nothing is inserted; otherwise exactly one guest with that name is inserted; the table changes iff neither query fails and no guest had the name; on success the id returned names a guest of that name |
| GameStore.FindOrCreateKeepsGuestsValid | backend/internal/database/game.go:78-116 | find-or-create keeps guest ids and guest names distinct |
| GameStore.FindOrCreateIsIdempotent | backend/internal/database/game.go:78-116 | a second call with the same name returns the same guest and inserts nothing, whatever id or failure of the insert it would have used |
| GameStore.FindOrCreateGuestPlayer | backend/internal/database/game.go:78-116 | the method keeps the invariants and has exactly the result and guest table FindOrCreateGuestEffect gives |
| GameStore.AddPlayerEffect | backend/internal/database/game.go:119-176 | the insert succeeds iff the statement works and the game seats neither that user nor that guest, and then appends exactly the new row; a seated player is player-already-in-game; a failure leaves the table unchanged and is mapped by the unique-violation helper |
| GameStore.AddPlayerKeepsPlayersValid | backend/internal/database/game.go:119-176 | a successful insert keeps the primary key and the one-seat-per-user and one-seat-per-guest constraints |
| GameStore.NullIdsNeverClash | backend/internal/database/game.go:144-150 | nil and empty user or guest ids are NULL and so never clash with a seated player |
| GameStore.AddPlayerToGame | backend/internal/database/game.go:119-176 | the method keeps the invariants and has exactly the result and table AddPlayerEffect gives |
| HandlerUtils.PayloadRefused | backend/internal/handlers/utils.go:60-66 | a body that does not decode is refused with a 400 |
| HandlerUtils.RequireFields | backend/internal/handlers/utils.go:69-77 | no reply iff every field is non-empty; otherwise the reply is the 400 naming the first empty field in visiting order |
| HandlerUtils.EmptyFieldIsRefused | backend/internal/handlers/utils.go:69-77 | any empty field gets a 400 whatever the other fields hold |
| HandlerUtils.Atoi | backend/internal/handlers/utils.go:85-95 | a parsed value fits in 64 bits, comes from an optional sign followed by at least one digit and nothing else, and is negative only after a minus |
| HandlerUtils.AtoiReadsItoa | backend/internal/handlers/utils.go:85-95 | every 64-bit integer, written in decimal, parses back to itself |
| HandlerUtils.AtoiAcceptsPaddedForms | backend/internal/handlers/utils.go:85-95 | any run of leading zeros before the decimal digits of a 64-bit value, with no sign, a plus or a minus, reads as that value or its negation, so "007", "+25" and "-0" are accepted |
| HandlerUtils.AtoiRefusesOtherText | backend/internal/handlers/utils.go:85-95 | empty text, a bare sign, surrounding spaces and digit separators are refused |
| HandlerUtils.AtoiRefusesOverflow | backend/internal/handlers/utils.go:85-95 | one past the largest 64-bit integer is refused |
| HandlerUtils.QueryParam | backend/internal/handlers/utils.go:80-82 | the parameter is its first value, or "" when it is missing or has no value |
| HandlerUtils.QueryParamInt | backend/internal/handlers/utils.go:85-95 | the result is the integer and true exactly when the first value parses, and 0 and false otherwise, in particular for a missing parameter |
| HandlerUtils.QueryParamIntReadsFirstValue | backend/internal/handlers/utils.go:85-95 | a parameter given several times is read from its first value only |
| HandlerUtils.PositiveOr | backend/internal/handlers/utils.go:111-126 | the value is the parsed integer when it is at least 1, and the default otherwise |
| HandlerUtils.GetPaginationParams | backend/internal/handlers/utils.go:111-126 | page and page size are each the parsed parameter when it is at least 1, and 1 or 25 otherwise |
| HandlerUtils.NoParamsGivesDefaults | backend/internal/handlers/utils.go:111-126 | a request with neither parameter gets page 1 of 25 |
| HandlerUtils.CeilDiv | backend/internal/handlers/utils.go:131-133 | the quotient is the least number of groups of b that hold a items |
| HandlerUtils.CalculatePagination | backend/internal/handlers/utils.go:129-147 | the total and size are echoed; there are no pages unless both are positive, and then just enough pages to hold every item; the page is clamped into 1..totalPages, with 1 when there are no pages |
| HandlerUtils.TotalPagesIsLeast | backend/internal/handlers/utils.go:129-147 | no smaller number of pages holds every item |
| HandlerUtils.PaginationIsIdempotent | backend/internal/handlers/utils.go:129-147 | asking again for the page that was returned gives the same pagination |
| HandlerUtils.FetchUserAndRespond | backend/internal/handlers/utils.go:196-217 | a read failure is a 500 and a missing user a 404; otherwise the reply has the caller's status and message and, for a success status, the user with that id |
| HandlerUtils.CheckGameAccessAndScorekeeper | backend/internal/handlers/utils.go:220-252 | the game is returned iff the read works, the game exists and the user is its current scorekeeper; otherwise the reply is 500 for a read failure, 404 for no game, 403 for another scorekeeper or none |
| HandlerUtils.IsScorekeeper | backend/internal/handlers/utils.go:240 | a game with a NULL scorekeeper has no scorekeeper, whatever the user id |
| HandlerUtils.ScorekeeperAccessIsExact | backend/internal/handlers/utils.go:220-252 | under the primary key, access to a game is granted exactly to its scorekeeper |
| Ordering.InsertBy | backend/internal/database/user.go:577-585 | inserting a row into a sorted sequence keeps it sorted, adds exactly that row and puts either it or the old first row first |
| Ordering.SortBy | backend/internal/database/user.go:577-585 | the rows come out in key order, as a permutation of the input |
| Ordering.TakeIsTop | backend/internal/database/user.go:577-586 | the first n rows of a sorted sequence come no later in key order than any row after them, which is what ORDER BY followed by LIMIT returns |
| ProfileHandlers.FriendCountShown | backend/internal/handlers/user.go:69-74 | the count shown is the number of accepted friendships, or 0 when counting fails |
| ProfileHandlers.ViewerStatus | backend/internal/handlers/user.go:76-90 | the status is not-authenticated iff there is no viewer, self iff the viewer is the profile's user, and friends iff the stored friendship is accepted and was read; a failed read is unknown |
| ProfileHandlers.CanViewStats | backend/internal/handlers/user.go:108-120 | the user sees their own stats whenever the privacy is one of public, friends_only and private; any other viewer sees them exactly when they are public, or friends_only and the viewer is a friend |
| ProfileHandlers.StatsShown | backend/internal/handlers/user.go:108-138 | stats are attached iff they are visible and both counts are read, and then they are the numbers of games played and of games won, wins never more than games |
| ProfileHandlers.ProfileReply | backend/internal/handlers/user.go:49-147 | a failed read is a 500 and a missing user a 404; the reply is 200 exactly otherwise, with the user's id, username, display name and avatar URL (absent when NULL), stats privacy and creation time, the friend count, the viewer's status and the stats the privacy setting lets that viewer see |
| ProfileHandlers.AnonymousVisitorIsRefused | backend/internal/handlers/user.go:42-47 | as written, an anonymous visitor to an existing profile receives the 401 of the session helper, followed by a profile written into the same response |
| ProfileHandlers.HandleGetUserProfileAsWritten | backend/internal/handlers/user.go:28-147 | as written, one or two replies go out: two exactly when the session yields no user id, the 401 of the session check and then the profile reply for no viewer; otherwise only the profile reply for the session's user |
| ProfileHandlers.SessionViewer | backend/internal/handlers/utils.go:172-193 | the viewer is present exactly when the session loads and holds a non-empty user id, and is that id |
| ProfileHandlers.HandleGetUserProfile | backend/internal/handlers/user.go:28-147 | the corrected handler sends exactly one reply, the profile reply for the session's viewer or for nobody |
| ProfileHandlers.AnonymousVisitorSeesPublicProfile | backend/internal/handlers/user.go:28-147 | with the correction an anonymous visitor gets the profile with the not-authenticated status, and stats only when the profile is public |
| ProfileHandlers.SignedInViewerIsUnaffected | backend/internal/handlers/user.go:42-47 | for a signed-in viewer the corrected handler replies exactly as the handler as written |
| ProfileHandlers.PrivateStatsOnlyForOwner | backend/internal/handlers/user.go:108-120 | private stats are shown only to the profile's own user |
| ProfileHandlers.FriendsOnlyStatsNeedFriendship | backend/internal/handlers/user.go:108-120 | friends-only stats are shown only to the user or to a viewer whose stored friendship with the user is accepted and was read |
| ProfileHandlers.LaterFaultsOnlyDegrade | backend/internal/handlers/user.go:69-138 | once the user is read, failures of the count, friendship and stats queries never turn the profile into an error |
| ProfileHandlers.Converted | backend/internal/handlers/user.go:179-187 | the items kept are exactly the rows whose conversion succeeds, never more than the rows |
| ProfileHandlers.ConvertedAppend | backend/internal/handlers/user.go:179-187 | skipping rows distributes over concatenation, so the items sent keep the search's order |
| ProfileHandlers.ConvertedKeepsAll | backend/internal/handlers/user.go:179-187 | when every row converts, the items are the rows exactly as found |
| ProfileHandlers.HandleSearchUsers | backend/internal/handlers/user.go:152-190 | a missing q is a 400 and a failed search a 500; the reply is 200 exactly otherwise, with at most the effective limit of rows, each a substring match of a user and converted |
| ProfileHandlers.UnreadableLimitIsTen | backend/internal/handlers/user.go:166-169 | a missing or unreadable limit, and one of zero or less, gives 10 rows at most |
| SessionStore.CreateSessionEffect | backend/internal/database/session.go:18-58 | an insert that works returns the new id and appends exactly one row; a failed one is a database error and leaves the table unchanged |
| SessionStore.NewSessionRow | backend/internal/database/session.go:26-50 | the inserted row carries the new id and status "active", a NULL name or creator exactly for an empty one, both timestamps set to the current time and no completion time |
| SessionStore.FindSession | backend/internal/database/session.go:140-179 | the session found is a row with that id; none is found iff no row has it |
| SessionStore.CreatedSessionReadsBack | backend/internal/database/session.go:18-58 | the new session keeps the key and reads back active and not completed, with the name and the creator NULL iff empty, and both timestamps the insertion time |
| SessionStore.CreateGameSession | backend/internal/database/session.go:18-58 | the method keeps the invariants and has exactly the result and table CreateSessionEffect gives |
| SessionStore.ActiveRows | backend/internal/database/session.go:68-100 | the rows are exactly the active sessions in which the user has a seat, each flagged with whether one of its games is active |
| SessionStore.Qualifies | backend/internal/database/session.go:92-99 | a session that is not active never qualifies |
| SessionStore.HasActiveGame | backend/internal/database/session.go:85-90 | the flag is set only when a game of that session has status active |
| SessionStore.PlayedIn | backend/internal/database/session.go:93-99 | the user played in the session only if some seat names that user |
| SessionStore.InSession | backend/internal/database/session.go:88 | a game with a NULL session belongs to no session |
| SessionStore.ActiveSessionsOf | backend/internal/database/session.go:68-100 | the query's result is a reordering of exactly the filtered rows |
| SessionStore.ActiveSessionsAreTheFilter | backend/internal/database/session.go:68-100 | the query returns a permutation of those rows, newest first |
| SessionStore.GetActiveSessionsByUserID | backend/internal/database/session.go:68-137 | the rows are read one by one into exactly the query's result; a failure of the query, of a row scan that is reached, or of the iteration discards it and is a database error |
| SessionStore.SetSessionStatus | backend/internal/database/session.go:140-179 | every row with that id gets the new status, completion time and update time; every other row is unchanged |
| SessionStore.RowsWithSessionId | backend/internal/database/session.go:163-176 | no row is affected iff no session has that id |
| SessionStore.UpdateSessionEffect | backend/internal/database/session.go:140-179 | a driver failure changes nothing; no matching row is session-not-found; the update succeeds iff it works and the session exists |
| SessionStore.UpdatedSessionReadsBack | backend/internal/database/session.go:140-179 | after a successful update the session reads back with the new status and completion time; the ids and every other session are unchanged, and a failure changes nothing |
| SessionStore.SetStatusKeepsKeys | backend/internal/database/session.go:140-179 | setting a status keeps the session ids and the key constraint, and changes nothing when no row matches |
| SessionStore.UpdateSessionStatus | backend/internal/database/session.go:140-179 | the method keeps the invariants and has exactly the result and table UpdateSessionEffect gives |
| Sessions.Session.constructor | backend/internal/handlers/auth.go:183-186 | an absent cookie is an empty session that loaded; an undecodable one did not load; no cookie is written yet |
| Sessions.Session.Save | backend/internal/handlers/auth.go:583-593 | a save that works writes a cookie carrying exactly the current values; a failed one writes nothing |
| Sessions.Lookup | backend/internal/handlers/auth.go:188-189 | a missing key reads as nil |
| Sessions.AsString | backend/internal/handlers/auth.go:195-202 | a string reads as itself, and a non-empty result comes only from a string |
| Sessions.AuthenticatedUserId | backend/internal/handlers/utils.go:172-193 | the user id is returned iff the session loaded and holds a non-empty string under user_id; otherwise the reply is a 401 |
| Sessions.UnauthenticatedMessages | backend/internal/handlers/utils.go:172-193 | the three 401 messages tell apart a session that did not load, a missing user id and a user id that is not a non-empty string |
| SettingsHandlers.ThemeFields | backend/internal/handlers/settings.go:51-56 | the required-field check sees exactly the two theme names, in whichever order the map is visited |
| SettingsHandlers.ThemeChange | backend/internal/database/user.go:295-302 | the change sets both theme columns, each NULL exactly when the requested name is empty and otherwise that name, and stamps the update time |
| SettingsHandlers.ThemeTx | backend/internal/handlers/settings.go:58-108 | the tables change only when the transaction starts, the update works, the user exists and the commit works; then exactly the user's theme columns change and the stored user is sent back; an unknown user is a 404, a failed start or update a 500 "Failed to update theme settings" and a failed commit a 500 "Failed to save theme settings", each changing nothing |
| SettingsHandlers.UpdateUserTheme | backend/internal/handlers/settings.go:32-108 | no session user is the session helper's 401 and an undecodable body a 400, both with no change; an empty theme name is a 400 with no change; otherwise the reply and tables are the transaction's |
| SettingsHandlers.ThemeIsStored | backend/internal/handlers/settings.go:58-96 | a committed theme update stores both names on the user's row (an empty one as NULL) with the update time, and leaves the identities alone |
| SettingsHandlers.HandleUpdateUserTheme | backend/internal/handlers/settings.go:32-108 | the handler on the database leaves no transaction open, keeps the invariants and has exactly the tables and reply UpdateUserTheme gives |
| SettingsHandlers.ThemeTransaction | backend/internal/handlers/settings.go:58-108 | the transaction on the database leaves no transaction open, keeps the invariants and has exactly the tables and reply ThemeTx gives |
| SettingsHandlers.ProfileUpdateSet | backend/internal/handlers/settings.go:132-146 | a display name that is blank after trimming is a 400; otherwise the set holds exactly the fields the body gives, the display name trimmed and non-empty and the others as given |
| SettingsHandlers.EmptyRequestIsEmptySet | backend/internal/handlers/settings.go:148-152 | a body with none of the three fields gives the empty set |
| SettingsHandlers.ProfileStoreEffect | backend/internal/database/user.go:321-399 | a profile update that is not refused leaves the users unchanged or applies exactly the requested change to the user's row |
| SettingsHandlers.ProfileErrorReply | backend/internal/handlers/settings.go:170-189 | user-not-found is a 404, the invalid-privacy error a 400, anything else a 500 |
| SettingsHandlers.ProfileTx | backend/internal/handlers/settings.go:154-193 | the tables change only when the transaction starts, the store works and the commit works, and then only by the requested change to the user's row, with the stored user sent back with "Profile updated successfully"; a failed start is a 500 "Failed to update user profile", a failed store or a refused stats privacy a 500 "Failed to update profile information", an unknown user a 404 and a failed commit a 500 "Failed to save profile changes", each changing nothing |
| SettingsHandlers.UpdateUserProfileRequest | backend/internal/handlers/settings.go:113-193 | no session user is a 401 and an undecodable body a 400; a blank display name is a 400; an empty set opens no transaction and sends the stored user with the unchanged message; otherwise the outcome is the transaction's |
| SettingsHandlers.OnlyPrivacyIsRefused | backend/internal/database/user.go:321-399 | of the three fields the store refuses only a stats privacy that is not one of the three values |
| SettingsHandlers.InvalidPrivacyIsServerError | backend/internal/handlers/settings.go:170-189 | an unknown stats privacy is answered with a 500, never the 400 the handler means for it, and nothing is stored |
| SettingsHandlers.ProfileIsStored | backend/internal/handlers/settings.go:132-193 | a committed profile update stores the trimmed display name and the other fields given, and keeps every field the body left out |
| SettingsHandlers.HandleUpdateUserProfile | backend/internal/handlers/settings.go:113-193 | the handler on the database leaves no transaction open, keeps the invariants and has exactly the tables and reply UpdateUserProfileRequest gives |
| SettingsHandlers.ProfileTransaction | backend/internal/handlers/settings.go:154-193 | the transaction on the database leaves no transaction open, keeps the invariants and has exactly the tables and reply ProfileTx gives |
| SettingsHandlers.UnlinkErrorReply | backend/internal/handlers/settings.go:285-296 | a missing identity is a 404, the last login method a 400, anything else a 500 |
| SettingsHandlers.UnlinkTx | backend/internal/handlers/settings.go:264-313 | the unlink succeeds iff the transaction starts, the count works and shows more than one login method, the delete works and removes a row, and the commit works; then exactly the user's identity for that provider is gone; any failure changes nothing |
| SettingsHandlers.UnlinkAccount | backend/internal/handlers/settings.go:242-313 | a missing provider is a 400 and no session user a 401, both with no change; otherwise the outcome is the transaction's |
| SettingsHandlers.UnlinkKeepsALoginMethod | backend/internal/handlers/settings.go:242-313 | unlinking keeps the table invariants, and a user who had a login method still has one, whatever fails |
| SettingsHandlers.RemoveKeepsOthersCount | backend/internal/database/user.go:463-509 | removing one user's identity rows leaves every other user's login methods alone |
| SettingsHandlers.HandleUnlinkAccount | backend/internal/handlers/settings.go:242-313 | the handler on the database leaves no transaction open, keeps the invariants and has exactly the tables and reply UnlinkAccount gives |
| Stats.WonIsPlayed | backend/internal/database/stats.go:20-58 | every game won is a game played |
| Stats.PlayedCompleted | backend/internal/database/stats.go:30-35 | a join row of the games-played query seats the user in a completed game; a guest seat, whose user id is NULL, never joins |
| Stats.WonCompleted | backend/internal/database/stats.go:43-48 | the wins query is the games-played join with the added first-place condition, so each of its rows is a games-played row |
| Stats.GamesPlayed | backend/internal/database/stats.go:30-35 | every id counted names a completed game of the table and has a seat of the user in it |
| Stats.GamesWon | backend/internal/database/stats.go:43-48 | every id counted has a seat of the user that finished first |
| Stats.GetUserBasicStats | backend/internal/database/stats.go:20-58 | the first failing query's error and no stats, or the number of distinct completed games the user has a seat in and the number they finished first in, which is never larger |
| Stats.SeatsDoNotMultiplyGames | backend/internal/database/stats.go:20-58 | a further seat in a game already counted does not change the games played |
| Stats.GetSiteWideSummaryStats | backend/internal/database/stats.go:68-134 | the summary is the first failing query's error; otherwise the total is the number of users, and the new users, sessions and games this month are exactly the counts of rows created inside [oneMonthAgo, now], each no more than its table holds |
| Stats.UsersCreatedIn | backend/internal/database/stats.go:117-120 | the count is at most the table's size and is zero exactly when no user was created inside the window |
| Stats.SessionsCreatedIn | backend/internal/database/stats.go:87-90 | the count is at most the table's size and is zero exactly when no session was created inside the window |
| Stats.GamesCreatedIn | backend/internal/database/stats.go:102-105 | the count is at most the table's size and is zero exactly when no game was created inside the window |
| Stats.NewUserCountIsInclusive | backend/internal/database/stats.go:68-134 | a user counts as new exactly when created no earlier than one month ago and no later than now, both ends included |
| Stats.SessionCountIsInclusive | backend/internal/database/stats.go:68-134 | a session counts exactly when created inside the window, both ends included |
| Stats.GameCountIsInclusive | backend/internal/database/stats.go:68-134 | a game counts exactly when created inside the window, both ends included |
| Tables.Database.constructor | backend/internal/database/database.go:20-28 | the database starts with the given valid tables and no transaction open |
| Tables.Database.BeginTx | backend/internal/handlers/utils.go:150-158 | a failure to start is a database error and opens no transaction; otherwise the transaction remembers the current tables |
| Tables.Database.Rollback | backend/internal/handlers/auth.go:257-277 | after a rollback the tables are those the transaction started from and no transaction is open |
| Tables.Database.Commit | backend/internal/handlers/auth.go:287-298 | after a commit no transaction is open; a successful one keeps the changes, a failed one is a database error and restores the start of the transaction |
| Text.TrimSpace | backend/internal/handlers/auth.go:408 | the result is the part of the text left once the leading and trailing white space is dropped: everything before and after it is white space and it neither starts nor ends with white space, white space being Go's unicode.IsSpace set (the Latin-1 spaces and the White_Space code points above Latin-1, U+3000 among them) |
| Text.TrimSpaceEmptyIffBlank | backend/internal/handlers/auth.go:408 | trimming gives "" exactly when every character of the text is white space in Go's unicode.IsSpace sense, so a display name or username of only U+3000 is blank |
| Text.Lower | backend/internal/users/username.go:20 | lower-casing keeps the length and lower-cases each character on its own |
| Text.BeforeFirst | backend/internal/users/username.go:50-51 | the first part of a split is a prefix of the text that does not contain the separator, and the separator follows it unless the part is the whole text |
| UserSearch.EscapeLike | backend/internal/database/user.go:571 | the escaped text is at least as long as the query |
| UserSearch.LikeAnything | backend/internal/database/user.go:571 | a lone `%` matches every text |
| UserSearch.LikeEscaped | backend/internal/database/user.go:571 | an escaped text followed by a pattern matches exactly the texts that start with that text and go on with a match of the rest |
| UserSearch.EscapedContainsPattern | backend/internal/database/user.go:571 | the escaped contains-pattern matches exactly the texts that contain the query |
| UserSearch.EscapedPrefixPattern | backend/internal/database/user.go:594 | the escaped prefix-pattern matches exactly the texts that start with the query |
| UserSearch.MatchingRows | backend/internal/database/user.go:576 | the rows kept are exactly the users whose username or display name matches the pattern, none repeated |
| UserSearch.RowMatches | backend/internal/database/user.go:576 | a lone `%` matches every user; a user with a NULL display name matches exactly when the lower-cased username matches |
| UserSearch.RankWith | backend/internal/database/user.go:578-584 | the rank is between 1 and 5, and it is 1 exactly when the lower-cased username equals the lower-cased query |
| UserSearch.PatternsAsWritten | backend/internal/database/user.go:571-594 | the patterns as written: the exact text is the lower-cased query, the contains-pattern is it between two `%` and the prefix-pattern is it followed by `%`, character by character, with nothing escaped |
| UserSearch.EscapedPatterns | backend/internal/database/user.go:571-594 | the corrected patterns put the escaped lower-cased query between `%` signs or before one `%` |
| UserSearch.SearchWith | backend/internal/database/user.go:556-625 | for either pattern set: an empty query gives no rows, a failed query its error, otherwise rows, at most the effective limit, each taken from a user that matches the pattern |
| UserSearch.EffectiveLimit | backend/internal/database/user.go:564-566 | a positive limit is kept, and any other limit becomes 10 |
| UserSearch.IntendedRank | backend/internal/database/user.go:578-584 | the rank is between 1 and 5 |
| UserSearch.EscapedQueryMeansSubstring | backend/internal/database/user.go:571-594 | with escaping, the WHERE clause is a case-insensitive substring match on username or display name, and the CASE is the intended rank: exact username, exact display name, username prefix, display-name prefix, anything else |
| UserSearch.UnderscorePatternMatchesAbc | backend/internal/database/user.go:571 | the unescaped pattern for "a_c" matches "abc" |
| UserSearch.UnescapedUnderscoreIsAWildcard | backend/internal/database/user.go:571-576 | as written, searching for "a_c" finds the user "abc", whose name does not contain "a_c" |
| UserSearch.SearchUsers | backend/internal/database/user.go:556-625 | an empty query gives no rows and a failed query its error; otherwise at most the effective limit of rows, each from a user that matches the query by substring |
| UserSearch.SearchUsersAsWritten | backend/internal/database/user.go:556-625 | as written: a non-empty query with a working read gives rows, at most the effective limit, each from a user matching the unescaped pattern |
| UserSearch.SearchResultsAreMatches | backend/internal/database/user.go:556-625 | every row the escaped search returns comes from a user that matches the query by substring |
| UserSearch.RankedMatches | backend/internal/database/user.go:576-585 | the ranking holds exactly the users that match by substring, in order of rank and then username |
| UserSearch.SearchUsersIsTopOfRanking | backend/internal/database/user.go:556-625 | the search returns the first rows of the ranking, as many as the limit allows, and every match left out ranks at or after every row returned |
| UserSearch.ExactUsernameComesFirst | backend/internal/database/user.go:579 | when a user's username is the query, ignoring case, the first row of the ranking is an exact username match |
| UserStore.FindUserById | backend/internal/database/user.go:81-109 | the user found is a row with that id; none is found exactly when no row has it |
| UserStore.QueryUser | backend/internal/database/user.go:98 | a failed query is reported as such; otherwise a row is found exactly when one exists, and it is that row |
| UserStore.ShownName | backend/internal/handlers/auth.go:572-577 | the name shown is the display name when it is set and non-empty, else the username |
| UserStore.FindUserByEmail | backend/internal/database/user.go:112-140 | the user found has that e-mail; none is found exactly when no row has it, NULL e-mails never matching |
| UserStore.ScanUserWith | backend/internal/database/utils.go:42-64 | a row scans exactly when one was found and there is one destination per column; no row is user-not-found and a query failure is wrapped |
| UserStore.GetUserByIDAsWrittenNeverSucceeds | backend/internal/database/utils.go:42-64 | as written, reading a user never succeeds: every row that is found fails to scan |
| UserStore.GetUserByIDAsWritten | backend/internal/database/user.go:81-109 | as written, a failed query is a database error and an id no user has is user-not-found |
| UserStore.GetUserByID | backend/internal/database/user.go:81-109 | the read succeeds iff the query works and a user has that id, returning that row; otherwise it is user-not-found or the driver's error |
| UserStore.GetUserByEmail | backend/internal/database/user.go:112-140 | the read succeeds iff the query works and a user has that e-mail, returning such a row; user-not-found exactly when none has it; otherwise the driver's error |
| UserStore.UserByIdIsUnique | backend/internal/database/user.go:81-109 | under the key constraint the user found by a row's id is that row |
| UserStore.UserByEmailIsUnique | backend/internal/database/user.go:112-140 | under the unique e-mail constraint the user found by a row's e-mail is that row |
| UserStore.InsertedStatsPrivacy | backend/internal/database/user.go:42-44 | an empty stats privacy is stored as public and any other is kept |
| UserStore.CreateUserEffect | backend/internal/database/user.go:21-78 | a blank username is refused before the insert; the insert succeeds iff the statement works and neither the username nor the e-mail is in use, and then appends exactly the new row; a taken username or e-mail is the matching sentinel; any failure leaves the table unchanged |
| UserStore.NewUserRow | backend/internal/database/user.go:34-56 | the inserted row carries the new id and the requested username, e-mail, display name, avatar URL and avatar source; an empty privacy becomes a non-empty default; the theme columns are NULL; creation, update and last-login times are the current time |
| UserStore.UsernameInUse | backend/internal/database/user.go:63-67 | the username is taken only when some user row has it |
| UserStore.EmailInUse | backend/internal/database/user.go:63-67 | a NULL e-mail is never taken |
| UserStore.UserInsertViolation | backend/internal/database/user.go:63-73 | the insert is refused exactly when the username or the e-mail is already taken, with a unique-violation error naming one of the two user constraints |
| UserStore.UserViolationIsMapped | backend/internal/database/user.go:63-73 | the violated constraint reaches the caller as username-taken or e-mail-taken |
| UserStore.CreateUserKeepsUsersValid | backend/internal/database/user.go:21-78 | creating a user keeps the key constraints and adds exactly the new id |
| UserStore.CreatedUserReadsBack | backend/internal/database/user.go:21-109 | the row inserted is what GetUserByID returns for the new id, and its stats privacy is never empty |
| UserStore.CreateUser | backend/internal/database/user.go:21-78 | the method keeps the invariants and has exactly the result and table CreateUserEffect gives |
| UserStore.ApplyChange | backend/internal/database/user.go:249-399 | no update changes a user's id, username, e-mail or creation time |
| UserStore.UpdateUserRows | backend/internal/database/user.go:249-399 | every row with that id gets the change and no other row changes |
| UserStore.RowsWithUserId | backend/internal/database/user.go:271-280 | no row is affected exactly when no user has that id |
| UserStore.UpdateKeepsUsersValid | backend/internal/database/user.go:249-399 | an update of users keeps the key constraints and the set of ids |
| UserStore.UpdatedUserReadsBack | backend/internal/database/user.go:249-399 | after an update the user reads back as the old row with the change applied |
| UserStore.UpdateOfAbsentUserIsNoOp | backend/internal/database/user.go:249-399 | an update whose WHERE matches nothing leaves the table as it is |
| UserStore.UpdateUserEffect | backend/internal/database/user.go:249-399 | a driver failure is wrapped and changes nothing; otherwise the matching rows change, and when there are none the result is the caller's not-found error |
| UserStore.UpdateUserLastLogin | backend/internal/database/user.go:249-284 | the method changes the users exactly as UpdateUserEffect does with the last-login change, and a missing user is a plain error rather than user-not-found |
| UserStore.UpdateUserThemeSettings | backend/internal/database/user.go:287-318 | the method stores both theme names, empty ones as NULL, exactly as UpdateUserEffect does, with user-not-found for a missing user |
| UserStore.ExecUserUpdate | backend/internal/database/user.go:249-318 | running the statement and the rows-affected check has exactly the effect UpdateUserEffect gives |
| UserStore.UpdateUserProfile | backend/internal/database/user.go:321-399 | an empty map writes nothing; a map with a refused field writes nothing and reports one refused field; otherwise the effect is the profile change through UpdateUserEffect |
| UserStore.BuildProfileSetClause | backend/internal/database/user.go:337-362 | the walk succeeds exactly when no field is refused, and then the SET clause holds every requested field with its value; otherwise the error names a refused field |
| UserStore.FindIdentity | backend/internal/database/user.go:201-246 | the identity found is a row for that provider account; none is found exactly when no row is |
| UserStore.GetUserProviderIdentity | backend/internal/database/user.go:201-246 | a driver failure is wrapped; otherwise the read succeeds iff a row is that provider account, returning it, and identity-not-found exactly otherwise |
| UserStore.CreateIdentityEffect | backend/internal/database/user.go:143-198 | the insert succeeds iff the statement works, the account is not yet linked, the user has no identity with that provider and exists; then it appends exactly the new row; a clash on either unique key is the conflict sentinel; any failure leaves the table unchanged |
| UserStore.NewIdentityRow | backend/internal/database/user.go:158-180 | the inserted identity carries the new id, the user, the provider name, account, e-mail, display name and avatar, and both timestamps are now |
| UserStore.IdentityInsertViolation | backend/internal/database/user.go:182-193 | the insert is refused exactly when the provider account is already linked, the user already has that provider, or the user does not exist; the refusal is a server error, and a unique violation names one of the two identity constraints |
| UserStore.CreateIdentityKeepsValid | backend/internal/database/user.go:143-198 | creating an identity keeps the key constraints and the reference to users |
| UserStore.CreatedIdentityReadsBack | backend/internal/database/user.go:143-246 | the identity inserted is what GetUserProviderIdentity returns for its provider account |
| UserStore.FindIdentityPastUnmatched | backend/internal/database/user.go:201-246 | rows that are not the provider account do not affect which row the lookup finds |
| UserStore.CreateUserProviderIdentity | backend/internal/database/user.go:143-198 | the method keeps the invariants and has exactly the result and table CreateIdentityEffect gives |
| UserStore.RefreshIdentityRows | backend/internal/database/user.go:512-553 | the identity with that id gets the provider's e-mail, name and avatar (empty ones NULL) and the update time; nothing else in it or in any other row changes |
| UserStore.RowsWithIdentityId | backend/internal/database/user.go:541-549 | no row is affected exactly when no identity has that id |
| UserStore.RefreshKeepsIdentitiesValid | backend/internal/database/user.go:512-553 | refreshing an identity keeps the constraints and the ids |
| UserStore.RefreshIdentityEffect | backend/internal/database/user.go:512-553 | a driver failure is wrapped and changes nothing; otherwise the rows are refreshed, and an unknown id is identity-not-found |
| UserStore.UpdateUserProviderIdentityDetails | backend/internal/database/user.go:512-553 | the method keeps the invariants and has exactly the result and table RefreshIdentityEffect gives |
| UserStore.ProviderRowCount | backend/internal/database/user.go:463-509 | no row matches the user and provider exactly when the user has no identity with that provider |
| UserStore.RemoveProviderRows | backend/internal/database/user.go:463-509 | the delete removes exactly the user's rows for that provider and keeps every other row |
| UserStore.RemoveProviderRowsCount | backend/internal/database/user.go:463-509 | the delete lowers the user's login-method count by exactly the rows it removes |
| UserStore.AtMostOneProviderRow | backend/internal/database/user.go:463-509 | under the per-user provider constraint at most one row matches a user and provider |
| UserStore.RemoveKeepsIdentitiesValid | backend/internal/database/user.go:463-509 | removing rows keeps every identity constraint |
| UserStore.TailIdentitiesValid | backend/internal/database/user.go:463-509 | the rows after the first of a valid identities table are valid |
| UserStore.DeleteIdentityEffect | backend/internal/database/user.go:463-509 | the count comes first: its failure changes nothing, and a user with at most one identity keeps it and gets the last-identity error; otherwise a failed delete changes nothing, and a working one removes the provider's rows, identity-not-found exactly when there were none |
| UserStore.IdentityCount | backend/internal/database/user.go:470-472 | the count of the user's login methods is at most the table's size and is zero exactly when no identity belongs to the user |
| UserStore.DeleteKeepsALoginMethod | backend/internal/database/user.go:463-509 | deleting keeps the constraints, and a user with a login method keeps one |
| UserStore.DeleteUserProviderIdentity | backend/internal/database/user.go:463-509 | the method keeps the invariants and has exactly the result and table DeleteIdentityEffect gives |
| Username.ReplaceSeparators | backend/internal/users/username.go:22 | each space, dot and hyphen becomes an underscore and every other character stays, position by position |
| Username.KeepUsernameChars | backend/internal/users/username.go:24 | only lower-case letters, digits and underscores remain and nothing is added; which characters remain and in which order is stated by the three lemmas below |
| Username.KeepUsernameCharsFixes | backend/internal/users/username.go:24 | nothing is dropped exactly when every character is allowed, and then the text comes back unchanged |
| Username.KeepUsernameCharsMembers | backend/internal/users/username.go:24 | a character is in the result exactly when it is in the text and is a lower-case letter, a digit or an underscore |
| Username.KeepUsernameCharsAppend | backend/internal/users/username.go:24 | the removal distributes over concatenation, so the characters kept stay in the text's order |
| Username.TrimLeadingUnderscores | backend/internal/users/username.go:26 | the result is a suffix of the text that does not start with an underscore |
| Username.TrimTrailingUnderscores | backend/internal/users/username.go:26 | the result is a prefix of the text that does not end with an underscore, and only underscores were dropped |
| Username.TrimUnderscores | backend/internal/users/username.go:26 | the result is a run of the text with no underscore at either end |
| Username.CollapseUnderscores | backend/internal/users/username.go:27 | no two underscores remain side by side; the text does not grow, keeps its first and last characters, and keeps its alphabet |
| Username.SanitizeUsername | backend/internal/users/username.go:18-37 | the result is always a well-formed username (3 to 30 of a-z, 0-9 and _, no underscore at an end or doubled); it is the cleaned text when that has at least three characters, and user_ followed by the random fragment otherwise |
| Username.CleanedShape | backend/internal/users/username.go:19-31 | the cleaned text has at most 30 allowed characters, with no underscore at an end and none doubled |
| Username.TruncateShape | backend/internal/users/username.go:29-31 | cutting to 30 characters and trimming keeps the shape and loses at most one more character |
| Username.Truncate | backend/internal/users/username.go:29-31 | a text of at most 30 characters is kept; a longer one is cut to at most 30 |
| Username.FallbackIsWellFormed | backend/internal/users/username.go:33-35 | the fallback name is a well-formed username |
| Username.WellFormedIsCleaned | backend/internal/users/username.go:19-31 | every cleaning step leaves a well-formed username exactly as it is |
| Username.SanitizeKeepsWellFormed | backend/internal/users/username.go:18-37 | sanitising a well-formed username gives it back |
| Username.SanitizeIdempotent | backend/internal/users/username.go:18-37 | sanitising a sanitised name changes nothing, whatever random fragment the second call draws |
| Username.SanitizeIgnoresFreshForLongNames | backend/internal/users/username.go:33-36 | the random fragment matters only when the cleaned text is too short |
| Username.Candidate | backend/internal/users/username.go:47-54 | the candidate is the base name unless that is blank; then it is the part of a non-blank e-mail before the first @ |
| Username.GenerateUniqueUsername | backend/internal/users/username.go:40-71 | every generated name is well formed, has at least four characters and is never the bare word user |
| Username.SuffixedIsWellFormed | backend/internal/users/username.go:62-63 | a short well-formed name followed by an underscore and four random characters is well formed |
| Username.GenerateKeepsGoodBase | backend/internal/users/username.go:61-65 | a base name that is already a good username is used verbatim |
| Username.GenerateUsesEmailLocalPart | backend/internal/users/username.go:48-65 | with no base name, a good e-mail local part becomes the username |
| Username.GenerateFallsBackToRandom | backend/internal/users/username.go:58-59 | with neither a base name nor an e-mail the name is user_ and the random fragment |
| Username.GenerateSuffixesShortNames | backend/internal/users/username.go:61-63 | a sanitised name that is user or shorter than four characters gets an underscore and four random characters |
| GameHandlers.PlanSession | backend/internal/handlers/game.go:71-87 | a non-empty session name creates a session with that name; failing that, a non-empty session id is used as given; otherwise the game has no session |
| GameHandlers.ToGameResponse | backend/internal/handlers/game.go:113-127 | the response carries the game's id, status, creator and creation time, and its session id exactly when the column is not NULL |
| GameHandlers.CreatedReply | backend/internal/handlers/game.go:113-127 | the reply after the commit is always a 201; when the game cannot be read back it carries only the new id |
| GameHandlers.SessionStep | backend/internal/handlers/game.go:71-87 | the step fails, with a 500, exactly when a new session was planned and its insert fails; a new session is added and its id used; an existing id is used as given; no session leaves the table alone |
| GameHandlers.CreateGameTx | backend/internal/handlers/game.go:38-127 | the tables either stay as they were or become the committed game, and only when the transaction starts and the session insert, the game insert and the commit all work; then the reply is the 201 of the new game; a failed start, session insert, game insert or commit is its own 500 with nothing changed |
| GameHandlers.CommittedGame | backend/internal/handlers/game.go:38-127 | a committed create appends exactly one game with the new id, appends one session exactly when a new session was asked for, and leaves every other table as it was |
| GameHandlers.CreateGameRequestOutcome | backend/internal/handlers/game.go:30-128 | no session user is the session helper's 401 and an undecodable body a 400, both with no change; otherwise the outcome is the transaction's |
| GameHandlers.NewGameReadsBack | backend/internal/handlers/game.go:71-110 | a committed game keeps every table valid, adds exactly the new game id and reads back pending, with randomised seating and the user as creator and scorekeeper, in the session the plan chose (a new one reads back active) |
| GameHandlers.CreateGameSucceeds | backend/internal/handlers/game.go:38-127 | without failures the tables become the committed game and the client gets a 201 with the new game, pending, created by the user and in the chosen session |
| GameHandlers.HandleCreateGame | backend/internal/handlers/game.go:30-128 | the handler on the database leaves no transaction open, keeps the invariants and has exactly the tables and reply CreateGameRequestOutcome gives |
| GameHandlers.CheckPlayerRequest | backend/internal/handlers/game.go:165-176 | the body passes exactly when it names one of a user and a guest and a positive seat; neither and both get their own 400, and every refusal is a 400 |
| GameHandlers.GuestStep | backend/internal/handlers/game.go:200-212 | a body without a guest leaves the guests alone; a guest name goes through find-or-create and the seat gets the id of a guest with that name; a failure is a 500 |
| GameHandlers.SeatName | backend/internal/handlers/game.go:228-242 | a guest seat is shown with the guest name; a user seat with the user's shown name, a failed read or a missing user being a 500 |
| GameHandlers.AddErrorReply | backend/internal/handlers/game.go:214-225 | a player already in the game is a 409 and any other failure a 500 |
| GameHandlers.AddPlayerTx | backend/internal/handlers/game.go:178-268 | the tables change only with a 201; a 201 means the guest step worked, exactly the new seat was appended for a player the game did not seat, the name was read and the reply carries the seat with score 0 |
| GameHandlers.AddPlayer | backend/internal/handlers/game.go:133-269 | a missing game id is a 400; the tables change, and a 201 is sent, only for a signed-in scorekeeper of an existing game with a body that passes the rules, and then the outcome is the transaction's |
| GameHandlers.AddPlayerKeepsTablesValid | backend/internal/handlers/game.go:178-268 | adding a seat keeps every table valid, leaves users and games alone and adds at most one guest |
| GameHandlers.SeatIsNamedAsRequested | backend/internal/handlers/game.go:228-268 | the new seat has score 0 and the requested seat; it shows the guest name for a guest, and for a user the display name when set and non-empty, else the username |
| GameHandlers.SeatedPlayerIsConflict | backend/internal/handlers/game.go:214-225 | a user the game already seats gets a 409 and nothing changes |
| GameHandlers.EmptyUserIdBesideGuestIsEchoed | backend/internal/handlers/game.go:165-172 | an empty user id next to a guest name passes the rules, and the reply carries that empty user id next to the guest |
| GameHandlers.HandleAddPlayerToGame | backend/internal/handlers/game.go:133-269 | the handler on the database leaves no transaction open, keeps the invariants and has exactly the tables and reply AddPlayer gives |
| GameHandlers.AddPlayerTransaction | backend/internal/handlers/game.go:178-268 | the transaction on the database leaves no transaction open, keeps the invariants and has exactly the tables and reply AddPlayerTx gives |
| GameHandlers.AddGuestIfNamed | backend/internal/handlers/game.go:200-212 | the guest part on the database changes the guests exactly as GuestStep says, and a failure leaves them alone |
| GameHandlers.ReadSeatName | backend/internal/handlers/game.go:228-242 | the shown name the handler computes is the one SeatName describes, errors included |

## Left out

- The OAuth handshake itself: the provider round trip, CompleteUserAuth and BeginAuthHandler. The provider's answer is a parameter of the callback.
- Cookie transport and the session codec: loading and saving a session are parameters that either give the stored values or fail.
- HandleOAuthLogin and HandleOAuthLogout only forward to the provider library or clear the cookie; they compute nothing the model could state.
- Logging: the log lines the handlers write are not modelled, because nothing a client sees depends on them.
- Floating point: CalculatePagination divides as floats and takes the ceiling; the model uses the integer ceiling, which agrees while the totals stay below 2^53.
- Concurrency: requests are modelled one at a time against the database; interleaved transactions and row locks are not.
- Panics are modelled only in the OAuth callback, and there at one point only: after steps 4 to 7 have run and written their replies, just before the deferred function chooses between rollback and commit. A panic earlier in the body, which would cut the remaining steps short, is not modelled, and neither are the panics the other handlers might raise.
- HandleGetLinkedAccounts and GetUserProviderIdentitiesByUserID are not part of this model.
- QueryParamInt64 is the same decimal parse as QueryParamInt, with a 64-bit bound; only the int form is modelled.
- PathVar and the router are not part of this model: a path value is an `Option` parameter of each handler.
- The row converter of the search results is the `converts` parameter of the search model, not a function of its own.
- The iteration order of Go maps is a parameter wherever it shows: which theme field is applied first and the order of the fields in the profile update.
- Foreign keys of the game tables are not checked: the model keeps the schema's unique constraints as invariants, but a game row may name a session the tables do not hold.
- RFC 3339 time formatting is a `format` parameter from timestamps to strings.
- Rows with equal sort keys come out in table order; the order PostgreSQL would pick for them is not modelled.
- Collation: lower-casing and comparison are by code point on ASCII letters; Unicode case folding is not modelled.
- time.Now, AddDate and uuid generation are parameters (a clock value and fresh ids that the tables do not hold).
- SearchUsers: the loop that scans the result rows one by one is folded into a single possible fault for the whole read.
- GameHandlers.CreateGameSucceeds: assumes the generated session id is non-empty, which uuid generation guarantees but the model takes as a precondition.
- Stats.UsersCreatedIn, Stats.SessionsCreatedIn and Stats.GamesCreatedIn state a bound and when the count is zero; which rows they count one by one is stated by the Inclusive lemmas beside them, and GetSiteWideSummaryStats states that its three monthly figures are exactly these counts.
- OAuthCallback (AuthHandlers.OAuthCallback, over AuthHandlers.CallbackFaults): each fault is an independent parameter, so the model admits a failed last-login update (auth.go:547-552), or a failed refresh of a returning identity (auth.go:523-528), together with a commit that succeeds. In PostgreSQL a statement that fails on the server aborts the transaction and the deferred commit (auth.go:289) then fails; the model does not impose this. Such a failure that is only a lost connection can still meet a working commit. AuthProperties.AbortsOnServerFault states the PostgreSQL reading, and AuthProperties.LoggedServerFaultRollsBack proves what the callback does under it.
- LastLoginFailureIsIgnored (AuthProperties.LastLoginFailureIsIgnored): it compares the replies, session values and cookie of a callback with and without a last-login fault, keeping the same commit outcome. Under PostgreSQL's abort rule a server-side fault also forces the commit to fail, which adds a 500 and rolls the tables back; that case is AuthProperties.LoggedServerFaultRollsBack, and this lemma does not cover it.
- SuccessfulCallback (AuthProperties.SuccessfulCallback), together with AuthProperties.ReturningLoginNamesOwner and AuthProperties.CommitFailureLeavesDanglingSession: these take the commit fault as given, independent of the logged-only last-login and identity-refresh faults. Those faults are free parameters, so a combination PostgreSQL never produces (a server-side statement failure with a working commit) is among their cases. Their conclusions hold for every combination, including the ones PostgreSQL does produce.
- Reading a user row: every handler path that reads a user is built on the corrected UserStore.GetUserByID and UserStore.GetUserByEmail of the first Findings row. These are the returning login, the re-read of the linking user and the e-mail match of the OAuth callback, GetCurrentUser, FetchUserAndRespond, the profile reply, the seat name of a new player, and the theme and profile replies. With scanUser as written each of those paths ends in a 500 for every existing user; the model states what the handlers do once the read works.
- ProfileHandlers.HandleSearchUsers is built on the escaped UserSearch.SearchUsers of the second Findings row; with the pattern as written, `_` and `%` in the query act as wildcards, as UserSearch.SearchUsersAsWritten shows.
- The win percentage of a profile's stats (handlers/user.go:128-131) is a rounded floating-point quotient and is not modelled; the stats carry the games played and won only.
- The source as given does not build: database/user.go writes and selects an avatar_source column and reads `user.AvatarSource`, but the User struct of models/database/user.go has no such field, and scanUser is declared twice with the same body (database/utils.go:42 and database/scanners.go:17). The model reads it as intended: the users table and the User row carry avatar_source, and there is one scanUser, with the eleven destinations both copies have.

## Findings

| source | as written | input that shows it | evidently intended | confidence | as-written member | corrected member |
|---|---|---|---|---|---|---|
| backend/internal/database/utils.go:42-64 | scanUser scans eleven destinations while the user queries select twelve columns, so every scan of a found user fails | any user id that is in the users table | one destination per selected column, so a found user is returned | not executed | UserStore.GetUserByIDAsWritten | UserStore.GetUserByID |
| backend/internal/database/user.go:571-594 | the search term is put into the ILIKE pattern without escaping `_` and `%` | the query "_" matches the username "abc" | a user matches when the query occurs as a substring of the name | not executed | UserSearch.SearchUsersAsWritten | UserSearch.SearchUsers |
| backend/internal/handlers/user.go:42-47 | the session helper writes a 401 for an anonymous viewer and the handler goes on and writes the profile as well | an anonymous visitor asking for any existing profile | an anonymous visitor sees the public profile | not executed | ProfileHandlers.HandleGetUserProfileAsWritten | ProfileHandlers.HandleGetUserProfile |
