/**
 * The cookie session of one request. The session registry loads the cookie
 * once per request, so every lookup of the store during a request returns
 * the same session object, and the same load error if decoding failed.
 */
module Sessions {
  import opened Wrappers
  import opened Http

  const UserIdKey := "user_id"
  const UserNameKey := "user_name"
  const LinkingProviderNameKey := "linking_provider_name"
  const LinkingUserIdKey := "linking_user_id_for_provider"

  /** A stored session value: nil, a string, or a value of any other type. */
  datatype SessionValue = SNil | SStr(s: string) | SOther

  class Session {
    /** The cookie was present but could not be decoded; the values then start empty. */
    const loadFailed: bool
    var values: map<string, SessionValue>
    /** The values the last successful Save wrote into the response's cookie. */
    var saved: Option<map<string, SessionValue>>

    /** An absent cookie is an empty session; an undecodable one is `None`. */
    constructor (cookie: Option<map<string, SessionValue>>)
      ensures loadFailed == cookie.None?
      ensures values == (if cookie.Some? then cookie.value else map[])
      ensures saved.None?
    {
      loadFailed := cookie.None?;
      values := if cookie.Some? then cookie.value else map[];
      saved := None;
    }

    /** Save: the cookie written carries the current values, unless saving fails. */
    method Save(fails: bool) returns (ok: bool)
      modifies this`saved
      ensures ok == !fails
      ensures saved == if fails then old(saved) else Some(values)
    {
      if fails {
        return false;
      }
      saved := Some(values);
      return true;
    }
  }

  /** `session.Values[key]`: a missing key reads as nil. */
  function Lookup(values: map<string, SessionValue>, key: string): (v: SessionValue)
    ensures key !in values ==> v == SNil
  {
    if key in values then values[key] else SNil
  }

  /** `v.(string)` with the ok result ignored: a non-string reads as "". */
  function AsString(v: SessionValue): (s: string)
    ensures v.SStr? ==> s == v.s
    ensures s != "" ==> v.SStr?
  {
    if v.SStr? then v.s else ""
  }

  /** The stored user id, when it is a non-empty string. */
  predicate HasUserId(values: map<string, SessionValue>) {
    UserIdKey in values && values[UserIdKey].SStr? && values[UserIdKey].s != ""
  }

  /**
   * GetAuthenticatedUserIDFromSession: the user id, or the 401 it writes.
   * It succeeds exactly when the session loaded and holds a non-empty string
   * under user_id.
   */
  function AuthenticatedUserId(loadFailed: bool, values: map<string, SessionValue>): (r: Result<string, Reply>)
    ensures r.Ok? <==> !loadFailed && HasUserId(values)
    ensures r.Ok? ==> r.value == values[UserIdKey].s
    ensures r.Err? ==> r.error.Json? && r.error.status == StatusUnauthorized
  {
    if loadFailed then Err(ErrorResponse(StatusUnauthorized, "Not authenticated: session error"))
    else if Lookup(values, UserIdKey).SNil? then Err(ErrorResponse(StatusUnauthorized, "Not authenticated: no user ID in session"))
    else if AsString(Lookup(values, UserIdKey)) == "" then
      Err(ErrorResponse(StatusUnauthorized, "Not authenticated: invalid user ID in session"))
    else Ok(AsString(Lookup(values, UserIdKey)))
  }

  /** The three 401 messages tell the three causes apart. */
  lemma UnauthenticatedMessages(loadFailed: bool, values: map<string, SessionValue>)
    requires AuthenticatedUserId(loadFailed, values).Err?
    ensures var m := AuthenticatedUserId(loadFailed, values).error.body.message;
      (m == "Not authenticated: session error" <==> loadFailed)
      && (m == "Not authenticated: no user ID in session" <==> !loadFailed && Lookup(values, UserIdKey).SNil?)
      && (m == "Not authenticated: invalid user ID in session" <==>
          !loadFailed && !Lookup(values, UserIdKey).SNil? && AsString(Lookup(values, UserIdKey)) == "")
  {
  }
}
