/** The JSON records the handlers send, with Go's pointer fields as options. */
module ApiModels {
  import opened Wrappers
  import opened FriendshipConvert

  /** The API user: nullable columns become absent fields; last_login_at is formatted text. */
  datatype ApiUser = ApiUser(
    userId: string,
    username: string,
    email: Option<string>,
    displayName: Option<string>,
    avatarUrl: Option<string>,
    statsPrivacy: string,
    avatarSource: Option<string>,
    uiTheme: Option<string>,
    colorTheme: Option<string>,
    createdAt: int,
    updatedAt: int,
    lastLoginAt: Option<string>)

  /** One provider account linked to a user. */
  datatype LinkedAccount = LinkedAccount(
    providerName: string,
    providerDisplayName: Option<string>,
    providerAvatarUrl: Option<string>,
    providerEmail: Option<string>)

  /** The win percentage is floating point and is not part of this model. */
  datatype UserStats = UserStats(totalGamesPlayed: int, totalWins: int)

  datatype UserProfile = UserProfile(
    userId: string,
    username: string,
    displayName: Option<string>,
    avatarUrl: Option<string>,
    statsPrivacy: string,
    createdAt: int,
    friendCount: int,
    friendshipStatus: APIFriendshipStatus)

  datatype UserProfileResponse = UserProfileResponse(profile: UserProfile, stats: Option<UserStats>)

  datatype GameResponse = GameResponse(
    gameId: string,
    sessionId: Option<string>,
    status: string,
    createdAt: int,
    createdByUserId: string)

  datatype GamePlayerResponse = GamePlayerResponse(
    gamePlayerId: string,
    gameId: string,
    userId: Option<string>,
    guestPlayerId: Option<string>,
    displayName: string,
    seatingOrder: int,
    finalScore: int)

  datatype Pagination = Pagination(currentPage: int, pageSize: int, totalPages: int, totalCount: int)
}
