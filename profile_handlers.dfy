/**
 * The public user endpoints: a user's profile as another user (or an
 * anonymous visitor) sees it, and the user search. The profile combines the
 * user row, the friend count, the relationship between viewer and profile
 * user, and the basic stats when the profile's privacy setting lets the
 * viewer see them.
 */
module ProfileHandlers {
  import opened Wrappers
  import opened DbUtils
  import opened Tables
  import opened ApiModels
  import opened Http
  import opened Sessions
  import opened UserStore
  import opened ConvertUser
  import opened FriendshipStore
  import opened FriendshipConvert
  import opened Stats
  import opened UserSearch
  import opened HandlerUtils

  const PrivacyPublic := "public"
  const PrivacyFriendsOnly := "friends_only"
  const PrivacyPrivate := "private"

  const MsgProfileNotFound := "User profile not found"
  const MsgProfileFetchFailed := "Failed to retrieve user profile details"
  const MsgProfileConvertFailed := "Failed to process user profile data"
  const MsgProfileOk := "User profile retrieved successfully"

  /** The faults of the profile's queries, in the order they run. */
  datatype ProfileFaults = ProfileFaults(
    user: Option<DbError>,
    friendCount: Option<DbError>,
    friendship: Option<DbError>,
    played: Option<DbError>,
    won: Option<DbError>)

  /** The tables the profile reads. */
  datatype ProfileTables = ProfileTables(
    users: seq<User>,
    friendships: seq<FriendshipRow>,
    games: seq<Game>,
    players: seq<GamePlayer>)

  // ---------------------------------------------------------------- relationship and visibility

  /** The friend count shown: the accepted friendships, or 0 when counting fails. */
  function FriendCountShown(friendships: seq<FriendshipRow>, profileId: string, fault: Option<DbError>): (n: nat)
    ensures fault.None? ==> n == AcceptedFriendships(friendships, profileId)
    ensures fault.Some? ==> n == 0
  {
    match CountFriends(friendships, profileId, fault)
    case Ok(c) => c
    case Err(_) => 0
  }

  /**
   * The relationship shown to the viewer: not authenticated without a
   * viewer, self for the profile's own user, otherwise the stored
   * friendship read from the viewer's side, or unknown when that read fails.
   */
  function ViewerStatus(viewer: Option<string>, profileId: string, friendships: seq<FriendshipRow>,
                        fault: Option<DbError>): (r: APIFriendshipStatus)
    ensures r == ApiViewerNotAuthenticated <==> viewer.None?
    ensures r == ApiSelf <==> viewer == Some(profileId)
    ensures r == ApiFriends <==>
      viewer.Some? && viewer.value != profileId && viewer.value != "" && profileId != "" && fault.None? &&
      FindFriendshipRow(friendships, viewer.value, profileId).Some? &&
      FindFriendshipRow(friendships, viewer.value, profileId).value.status == "accepted"
    ensures viewer.Some? && viewer.value != profileId && fault.Some? ==> r == ApiUnknown
  {
    if viewer.None? then ApiViewerNotAuthenticated
    else if viewer.value == profileId then ApiSelf
    else
      var st := GetFriendshipStatus(viewer.value, profileId, QueryFriendship(friendships, viewer.value, profileId, fault));
      if st.err.Some? then ApiUnknown else DBFriendshipStatusToAPIStatus(st.status.value)
  }

  /**
   * Whether the viewer may see the stats: anyone for a public profile,
   * friends and the user for friends_only, only the user for private, and
   * nobody for any other setting.
   */
  predicate CanViewStats(privacy: string, status: APIFriendshipStatus)
    ensures status == ApiSelf ==> (CanViewStats(privacy, status) <==> IsValidStatsPrivacy(privacy))
    ensures status != ApiSelf ==> (CanViewStats(privacy, status) <==>
      privacy == PrivacyPublic || (privacy == PrivacyFriendsOnly && status == ApiFriends))
  {
    if privacy == PrivacyPublic then true
    else if privacy == PrivacyFriendsOnly then status == ApiFriends || status == ApiSelf
    else if privacy == PrivacyPrivate then status == ApiSelf
    else false
  }

  /** The stats attached to the profile: present when visible and both queries succeed. */
  function StatsShown(t: ProfileTables, profileId: string, visible: bool, fx: ProfileFaults): (r: Option<UserStats>)
    ensures r.Some? <==> visible && fx.played.None? && fx.won.None?
    ensures r.Some? ==>
      r.value.totalGamesPlayed == |GamesPlayed(t.games, t.players, profileId)| &&
      r.value.totalWins == |GamesWon(t.games, t.players, profileId)| &&
      r.value.totalWins <= r.value.totalGamesPlayed
  {
    if !visible then None
    else match GetUserBasicStats(t.games, t.players, profileId, fx.played, fx.won)
      case Err(_) => None
      case Ok(s) => Some(UserStats(s.totalGamesPlayed, s.totalWins))
  }

  // ---------------------------------------------------------------- HandleGetUserProfile

  /**
   * The profile reply for a viewer (None: nobody is signed in). A missing
   * user is a 404 and a failed read a 500; every later failure only
   * degrades the profile (count 0, status unknown, no stats).
   */
  function ProfileReply(viewer: Option<string>, profileId: string, t: ProfileTables, fx: ProfileFaults,
                        format: int -> string): (r: Reply)
    ensures r.Json?
    ensures fx.user.Some? ==> r == ErrorResponse(StatusInternalServerError, MsgProfileFetchFailed)
    ensures fx.user.None? && profileId !in UserIds(t.users) ==> r == ErrorResponse(StatusNotFound, MsgProfileNotFound)
    ensures r.status == StatusOK <==> fx.user.None? && profileId in UserIds(t.users)
    ensures r.status == StatusOK ==>
      var u := FindUserById(t.users, profileId).value;
      var status := ViewerStatus(viewer, profileId, t.friendships, fx.friendship);
      r.body.data.ProfileData? && r.body.message == MsgProfileOk &&
      var p := r.body.data.profile;
      p.profile.userId == profileId && p.profile.username == u.username &&
      p.profile.displayName == OptionalText(u.displayName) && p.profile.avatarUrl == OptionalText(u.avatarUrl) &&
      p.profile.statsPrivacy == u.statsPrivacy && p.profile.createdAt == u.createdAt &&
      p.profile.friendCount == FriendCountShown(t.friendships, profileId, fx.friendCount) &&
      p.profile.friendshipStatus == status &&
      p.stats == StatsShown(t, profileId, CanViewStats(u.statsPrivacy, status), fx)
  {
    match GetUserByID(t.users, profileId, fx.user)
    case Err(e) =>
      if e == UserNotFound then ErrorResponse(StatusNotFound, MsgProfileNotFound)
      else ErrorResponse(StatusInternalServerError, MsgProfileFetchFailed)
    case Ok(u) =>
      match DBUserToAPIUser(Some(u), format)
      case Err(_) => ErrorResponse(StatusInternalServerError, MsgProfileConvertFailed)
      case Ok(apiUser) =>
        UserByIdIsFound(t.users, profileId, u);
        var status := ViewerStatus(viewer, profileId, t.friendships, fx.friendship);
        var profile := UserProfile(apiUser.userId, apiUser.username, apiUser.displayName, apiUser.avatarUrl,
                                   u.statsPrivacy, apiUser.createdAt,
                                   FriendCountShown(t.friendships, profileId, fx.friendCount), status);
        var stats := StatsShown(t, profileId, CanViewStats(u.statsPrivacy, status), fx);
        Respond(StatusOK, ProfileData(UserProfileResponse(profile, stats)), MsgProfileOk)
  }

  /** The row GetUserByID returns is the one FindUserById finds. */
  lemma UserByIdIsFound(users: seq<User>, userId: string, u: User)
    requires GetUserByID(users, userId, None) == Ok(u)
    ensures FindUserById(users, userId) == Some(u)
  {
  }

  /**
   * HandleGetUserProfile as written: when the session names no user,
   * GetAuthenticatedUserIDFromSession has already written a 401 before the
   * handler goes on as an anonymous viewer and writes the profile reply
   * behind it.
   */
  function HandleGetUserProfileAsWritten(loadFailed: bool, values: map<string, SessionValue>, profileId: string,
                                         t: ProfileTables, fx: ProfileFaults, format: int -> string)
    : (r: seq<Reply>)
    ensures 1 <= |r| <= 2
    ensures |r| == 2 <==> AuthenticatedUserId(loadFailed, values).Err?
    ensures |r| == 2 ==> r[0] == AuthenticatedUserId(loadFailed, values).error && r[1] == ProfileReply(None, profileId, t, fx, format)
    ensures |r| == 1 ==> r[0] == ProfileReply(Some(AuthenticatedUserId(loadFailed, values).value), profileId, t, fx, format)
  {
    match AuthenticatedUserId(loadFailed, values)
    case Err(unauthorized) => [unauthorized, ProfileReply(None, profileId, t, fx, format)]
    case Ok(viewerId) => [ProfileReply(Some(viewerId), profileId, t, fx, format)]
  }

  /**
   * An anonymous visitor to an existing profile receives the 401, never the
   * profile with the "viewer not authenticated" relationship the handler
   * goes on to build.
   */
  lemma AnonymousVisitorIsRefused(loadFailed: bool, values: map<string, SessionValue>, profileId: string,
                                  t: ProfileTables, fx: ProfileFaults, format: int -> string)
    requires !(!loadFailed && HasUserId(values))
    requires fx.user.None? && profileId in UserIds(t.users)
    ensures var replies := HandleGetUserProfileAsWritten(loadFailed, values, profileId, t, fx, format);
      |replies| == 2 && Received(replies).value.Json? && Received(replies).value.status == StatusUnauthorized
      && replies[1].status == StatusOK
      && replies[1].body.data.profile.profile.friendshipStatus == ApiViewerNotAuthenticated
  {
  }

  /** The viewer the session names, read without writing a reply. */
  function SessionViewer(loadFailed: bool, values: map<string, SessionValue>): (v: Option<string>)
    ensures v.Some? <==> !loadFailed && HasUserId(values)
    ensures v.Some? ==> v.value == values[UserIdKey].s && v.value != ""
  {
    match AuthenticatedUserId(loadFailed, values)
    case Ok(id) => Some(id)
    case Err(_) => None
  }

  /** HandleGetUserProfile as intended: an anonymous visitor is a viewer like any other. */
  function HandleGetUserProfile(loadFailed: bool, values: map<string, SessionValue>, profileId: string,
                                t: ProfileTables, fx: ProfileFaults, format: int -> string): (replies: seq<Reply>)
    ensures |replies| == 1
    ensures replies[0] == ProfileReply(SessionViewer(loadFailed, values), profileId, t, fx, format)
  {
    [ProfileReply(SessionViewer(loadFailed, values), profileId, t, fx, format)]
  }

  /**
   * The intended handler sends one reply; an anonymous visitor to an
   * existing profile gets it with the "viewer not authenticated" status and
   * the public stats only; a signed-in viewer gets what the handler as
   * written sends.
   */
  lemma AnonymousVisitorSeesPublicProfile(loadFailed: bool, values: map<string, SessionValue>, profileId: string,
                                          t: ProfileTables, fx: ProfileFaults, format: int -> string)
    requires !(!loadFailed && HasUserId(values))
    requires fx.user.None? && profileId in UserIds(t.users)
    ensures var r := Received(HandleGetUserProfile(loadFailed, values, profileId, t, fx, format)).value;
      r.status == StatusOK && r.body.data.profile.profile.friendshipStatus == ApiViewerNotAuthenticated
      && (r.body.data.profile.stats.Some? ==> FindUserById(t.users, profileId).value.statsPrivacy == PrivacyPublic)
  {
  }

  lemma SignedInViewerIsUnaffected(loadFailed: bool, values: map<string, SessionValue>, profileId: string,
                                   t: ProfileTables, fx: ProfileFaults, format: int -> string)
    requires !loadFailed && HasUserId(values)
    ensures HandleGetUserProfile(loadFailed, values, profileId, t, fx, format)
      == HandleGetUserProfileAsWritten(loadFailed, values, profileId, t, fx, format)
  {
  }

  /** Private stats are shown to the profile's own user only. */
  lemma PrivateStatsOnlyForOwner(viewer: Option<string>, profileId: string, t: ProfileTables, fx: ProfileFaults,
                                 format: int -> string)
    requires var r := ProfileReply(viewer, profileId, t, fx, format);
      r.status == StatusOK && r.body.data.profile.stats.Some? && r.body.data.profile.profile.statsPrivacy == PrivacyPrivate
    ensures viewer == Some(profileId)
  {
  }

  /**
   * Friends-only stats are shown to the user and to a viewer whose stored
   * friendship with the user is accepted; a failed friendship read hides them.
   */
  lemma FriendsOnlyStatsNeedFriendship(viewer: Option<string>, profileId: string, t: ProfileTables,
                                       fx: ProfileFaults, format: int -> string)
    requires var r := ProfileReply(viewer, profileId, t, fx, format);
      r.status == StatusOK && r.body.data.profile.stats.Some? &&
      r.body.data.profile.profile.statsPrivacy == PrivacyFriendsOnly
    ensures viewer == Some(profileId) ||
      (viewer.Some? && fx.friendship.None? &&
       FindFriendshipRow(t.friendships, viewer.value, profileId).Some? &&
       FindFriendshipRow(t.friendships, viewer.value, profileId).value.status == "accepted")
  {
  }

  /** Neither the friend count nor the friendship read can turn a profile into an error. */
  lemma LaterFaultsOnlyDegrade(viewer: Option<string>, profileId: string, t: ProfileTables, fx: ProfileFaults,
                               format: int -> string)
    requires fx.user.None? && profileId in UserIds(t.users)
    ensures var r := ProfileReply(viewer, profileId, t, fx, format);
      var r' := ProfileReply(viewer, profileId, t, fx.(friendCount := None, friendship := None, played := None, won := None), format);
      r.status == r'.status == StatusOK && r.body.data.profile.profile.userId == r'.body.data.profile.profile.userId
  {
  }

  // ---------------------------------------------------------------- HandleSearchUsers

  const MsgSearchQueryRequired := "Search query 'q' is required"
  const MsgSearchFailed := "Failed to search for users"
  const MsgSearchOk := "User search completed successfully"

  /** The rows whose conversion to the API item succeeds, in order; the others are skipped. */
  function Converted(rows: seq<SearchResult>, converts: SearchResult -> bool): (r: seq<SearchResult>)
    ensures |r| <= |rows|
    ensures forall x :: x in r <==> x in rows && converts(x)
  {
    if rows == [] then []
    else (if converts(rows[0]) then [rows[0]] else []) + Converted(rows[1..], converts)
  }

  /** The filter distributes over concatenation, so the rows kept stay in the search's order. */
  lemma {:induction false} ConvertedAppend(a: seq<SearchResult>, b: seq<SearchResult>, converts: SearchResult -> bool)
    ensures Converted(a + b, converts) == Converted(a, converts) + Converted(b, converts)
  {
    if a == [] {
      assert a + b == b;
    } else {
      assert (a + b)[0] == a[0];
      assert (a + b)[1..] == a[1..] + b;
      ConvertedAppend(a[1..], b, converts);
    }
  }

  /** When every row converts, the reply carries the rows exactly as found. */
  lemma {:induction false} ConvertedKeepsAll(rows: seq<SearchResult>, converts: SearchResult -> bool)
    requires forall x :: x in rows ==> converts(x)
    ensures Converted(rows, converts) == rows
  {
    if rows != [] {
      assert rows[0] in rows;
      assert forall x :: x in rows[1..] ==> x in rows;
      ConvertedKeepsAll(rows[1..], converts);
    }
  }

  /**
   * HandleSearchUsers: `q` is required; `limit` is 10 when it is missing or
   * not an integer; the rows found are sent after dropping those whose
   * conversion fails (`converts` stands for the item converter).
   */
  function HandleSearchUsers(query: map<string, seq<string>>, users: seq<User>, fault: Option<DbError>,
                             converts: SearchResult -> bool): (r: Reply)
    ensures r.Json?
    ensures QueryParam(query, "q") == "" <==> r == ErrorResponse(StatusBadRequest, MsgSearchQueryRequired)
    ensures QueryParam(query, "q") != "" && fault.Some? ==> r == ErrorResponse(StatusInternalServerError, MsgSearchFailed)
    ensures r.status == StatusOK <==> QueryParam(query, "q") != "" && fault.None?
    ensures r.status == StatusOK ==>
      r.body.data.SearchData? && r.body.message == MsgSearchOk &&
      var q := QueryParam(query, "q");
      var limit := if QueryParamInt(query, "limit").1 then QueryParamInt(query, "limit").0 else DefaultSearchLimit;
      |r.body.data.rows| <= EffectiveLimit(limit) && ResultsAreMatches(users, q, r.body.data.rows) &&
      forall x :: x in r.body.data.rows ==> converts(x)
  {
    var q := QueryParam(query, "q");
    if q == "" then ErrorResponse(StatusBadRequest, MsgSearchQueryRequired)
    else
      var (parsed, ok) := QueryParamInt(query, "limit");
      var limit := if ok then parsed else DefaultSearchLimit;
      match SearchUsers(users, q, limit, fault)
      case Err(_) => ErrorResponse(StatusInternalServerError, MsgSearchFailed)
      case Ok(rows) =>
        var items := Converted(rows, converts);
        assert ResultsAreMatches(users, q, items) by {
          forall i | 0 <= i < |items|
            ensures IsMatchFor(users, q, items[i])
          {
            assert items[i] in rows;
          }
        }
        Respond(StatusOK, SearchData(items), MsgSearchOk)
  }

  /** A missing or unreadable limit is 10, and so is a limit of zero or less. */
  lemma UnreadableLimitIsTen(query: map<string, seq<string>>)
    requires !QueryParamInt(query, "limit").1 || QueryParamInt(query, "limit").0 <= 0
    ensures EffectiveLimit(if QueryParamInt(query, "limit").1 then QueryParamInt(query, "limit").0 else DefaultSearchLimit)
      == DefaultSearchLimit
  {
  }
}
