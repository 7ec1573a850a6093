/** The API-side relationship between the viewer and a profile, and its mapping from the database status. */
module FriendshipConvert {
  import opened DbUtils
  import opened FriendshipStore

  datatype APIFriendshipStatus =
    | ApiViewerNotAuthenticated
    | ApiSelf
    | ApiFriends
    | ApiNotFriends
    | ApiPendingSentToViewer
    | ApiPendingSentToProfile
    | ApiBlockedByViewer
    | ApiBlockedByProfileUser
    | ApiUnknown

  /** The six database statuses that name a relationship between two different users. */
  predicate IsNamedPairStatus(s: DBFriendshipStatus) {
    s.NotFriends? || s.Friends? || s.PendingFirstSentToSecond? || s.PendingSecondSentToFirst?
    || s.BlockedSecondByFirst? || s.BlockedFirstBySecond?
  }

  /** DBFriendshipStatusToAPIStatus: the first user is the viewer, the second the profile's user. */
  function DBFriendshipStatusToAPIStatus(s: DBFriendshipStatus): (r: APIFriendshipStatus)
    ensures r == ApiUnknown <==> !IsNamedPairStatus(s)
    ensures r != ApiSelf && r != ApiViewerNotAuthenticated
  {
    match s
    case Friends => ApiFriends
    case NotFriends => ApiNotFriends
    case PendingFirstSentToSecond => ApiPendingSentToProfile
    case PendingSecondSentToFirst => ApiPendingSentToViewer
    case BlockedSecondByFirst => ApiBlockedByProfileUser
    case BlockedFirstBySecond => ApiBlockedByViewer
    case _ => ApiUnknown
  }

  /** The six named statuses map to six different API statuses. */
  lemma NamedStatusesStayDistinct(a: DBFriendshipStatus, b: DBFriendshipStatus)
    requires IsNamedPairStatus(a) && IsNamedPairStatus(b) && a != b
    ensures DBFriendshipStatusToAPIStatus(a) != DBFriendshipStatusToAPIStatus(b)
  {
  }

  /**
   * Read through the viewer's query, a pending row is "sent to profile"
   * exactly when the viewer sent it; a blocked row is reported as
   * "blocked by profile user" exactly when the viewer is its requester,
   * which is the pairing the converter makes.
   */
  lemma DirectedStatusesFromViewerRow(viewer: string, profile: string, row: FriendshipRow)
    requires viewer != "" && profile != "" && viewer != profile && Links(row, viewer, profile)
    ensures var st := GetFriendshipStatus(viewer, profile, Found(row));
      var api := if st.status.Some? then DBFriendshipStatusToAPIStatus(st.status.value) else ApiUnknown;
      st.err.None? ==>
        (api == ApiPendingSentToProfile <==> row.status == "pending" && row.requesterId == viewer)
        && (api == ApiPendingSentToViewer <==> row.status == "pending" && row.requesterId == profile)
        && (api == ApiBlockedByProfileUser <==> row.status == "blocked" && row.requesterId == viewer)
        && (api == ApiBlockedByViewer <==> row.status == "blocked" && row.requesterId == profile)
  {
  }
}
