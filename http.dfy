/**
 * What a handler writes: JSON envelopes built by Respond and redirects. A
 * handler's output is the sequence of its writes; the first status written
 * is the one the client receives, later ones are superfluous.
 */
module Http {
  import opened Wrappers
  import opened ApiModels
  import opened UserSearch

  const StatusOK := 200
  const StatusCreated := 201
  const StatusFound := 302
  const StatusBadRequest := 400
  const StatusUnauthorized := 401
  const StatusForbidden := 403
  const StatusNotFound := 404
  const StatusConflict := 409
  const StatusInternalServerError := 500

  /** The generic message of the internal-error responses. */
  const InternalServerError := "internal-server-error"

  /** The `data` a handler passes to Respond. Search rows are the rows whose conversion succeeded. */
  datatype Payload =
    | NoData
    | TextData(text: string)
    | ErrorData(message: string)
    | UserData(user: ApiUser)
    | AccountsData(accounts: seq<LinkedAccount>)
    | ProfileData(profile: UserProfileResponse)
    | SearchData(rows: seq<SearchResult>)
    | GameData(game: GameResponse)
    | GameIdData(gameId: string)
    | PlayerData(player: GamePlayerResponse)

  /** APIResponse. */
  datatype ApiResponse = ApiResponse(success: bool, data: Payload, error: string, message: string)

  datatype Reply = Json(status: int, body: ApiResponse) | Redirect(url: string)

  predicate IsSuccessStatus(status: int) {
    200 <= status < 300
  }

  /**
   * Respond. Success is exactly a 2xx status; on any other status text or
   * error data moves into the error field and the data becomes empty.
   */
  function Respond(status: int, data: Payload, message: string): (r: Reply)
    ensures r.Json? && r.status == status && r.body.message == message
    ensures r.body.success <==> IsSuccessStatus(status)
    ensures IsSuccessStatus(status) ==> r.body.data == data && r.body.error == ""
    ensures !IsSuccessStatus(status) && data.TextData? ==> r.body.data == NoData && r.body.error == data.text
    ensures !IsSuccessStatus(status) && data.ErrorData? ==> r.body.data == NoData && r.body.error == data.message
    ensures !IsSuccessStatus(status) && !data.TextData? && !data.ErrorData? ==> r.body.data == data && r.body.error == ""
  {
    var success := IsSuccessStatus(status);
    if !success && data.TextData? then Json(status, ApiResponse(success, NoData, data.text, message))
    else if !success && data.ErrorData? then Json(status, ApiResponse(success, NoData, data.message, message))
    else Json(status, ApiResponse(success, data, "", message))
  }

  /** ErrorResponse: a failure envelope with no data. */
  function ErrorResponse(status: int, message: string): (r: Reply)
    ensures r.Json? && r.status == status && r.body.message == message && r.body.data == NoData
    ensures r.body.success <==> IsSuccessStatus(status)
  {
    Respond(status, NoData, message)
  }

  /** The status a reply carries; a redirect is a 302. */
  function StatusOf(r: Reply): int {
    if r.Redirect? then StatusFound else r.status
  }

  /** The reply the client receives: the first one written. */
  function Received(replies: seq<Reply>): Option<Reply> {
    if replies == [] then None else Some(replies[0])
  }
}
