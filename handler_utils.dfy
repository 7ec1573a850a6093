/**
 * The helpers every handler shares: required-field checks, query parameters
 * read as integers, pagination, and the two lookups that answer on their own
 * when they fail (the user for a settings reply, the game for a scorekeeper
 * check). An integer query parameter is read as Go's strconv.Atoi reads it
 * on a 64-bit platform.
 */
module HandlerUtils {
  import opened Wrappers
  import opened DbUtils
  import opened Tables
  import opened ApiModels
  import opened Http
  import opened UserStore
  import opened GameStore
  import opened ConvertUser

  const DefaultPage := 1
  const DefaultPageSize := 25

  const MinInt64 := -0x8000_0000_0000_0000
  const MaxInt64 := 0x7FFF_FFFF_FFFF_FFFF

  /** The tables a request leaves behind and the reply it sends. */
  datatype Outcome = Outcome(state: Snapshot, reply: Reply)

  // ---------------------------------------------------------------- ParseJSON and RequireFields

  const MsgInvalidPayload := "Invalid request payload: "

  /** ParseJSON's reply to a body that does not decode. */
  function PayloadRefused(decodeError: string): (r: Reply)
    ensures r.Json? && r.status == StatusBadRequest
  {
    ErrorResponse(StatusBadRequest, MsgInvalidPayload + decodeError)
  }

  /** The message for a missing field. */
  function RequiredMessage(field: string): string {
    field + " is required"
  }

  /**
   * RequireFields. `fields` lists the map's entries in the order the range
   * loop visits them (Go leaves that order unspecified): the first entry whose
   * value is empty is reported with a 400, and no reply means every field is
   * present.
   */
  function RequireFields(fields: seq<(string, string)>): (r: Option<Reply>)
    ensures r.None? <==> forall i :: 0 <= i < |fields| ==> fields[i].1 != ""
    ensures r.Some? ==> exists i :: (0 <= i < |fields| && fields[i].1 == "" &&
      (forall j :: 0 <= j < i ==> fields[j].1 != "") &&
      r.value == ErrorResponse(StatusBadRequest, RequiredMessage(fields[i].0)))
  {
    if fields == [] then None
    else if fields[0].1 == "" then Some(ErrorResponse(StatusBadRequest, RequiredMessage(fields[0].0)))
    else
      var rest := RequireFields(fields[1..]);
      assert forall i :: 1 <= i < |fields| ==> fields[i] == fields[1..][i - 1];
      assert rest.Some? ==> exists i :: (0 <= i < |fields| && fields[i].1 == "" &&
        (forall j :: 0 <= j < i ==> fields[j].1 != "") &&
        rest.value == ErrorResponse(StatusBadRequest, RequiredMessage(fields[i].0))) by {
        if rest.Some? {
          var i :| 0 <= i < |fields[1..]| && fields[1..][i].1 == "" &&
            (forall j :: 0 <= j < i ==> fields[1..][j].1 != "") &&
            rest.value == ErrorResponse(StatusBadRequest, RequiredMessage(fields[1..][i].0));
          assert fields[i + 1] == fields[1..][i];
        }
      }
      rest
  }

  /** A request that leaves a field empty is refused whatever the other fields hold. */
  lemma EmptyFieldIsRefused(fields: seq<(string, string)>, k: int)
    requires 0 <= k < |fields| && fields[k].1 == ""
    ensures RequireFields(fields).Some?
    ensures RequireFields(fields).value.status == StatusBadRequest
  {
  }

  // ---------------------------------------------------------------- strconv.Atoi

  predicate IsDigit(c: char) {
    '0' <= c <= '9'
  }

  predicate AllDigits(s: string) {
    forall i :: 0 <= i < |s| ==> IsDigit(s[i])
  }

  /** The value of a string of decimal digits, most significant first. */
  function DigitsValue(s: string): (n: nat)
    requires AllDigits(s) && s != []
  {
    if |s| == 1 then (s[0] - '0') as nat
    else DigitsValue(s[..|s| - 1]) * 10 + (s[|s| - 1] - '0') as nat
  }

  /** The digits after an optional leading sign. */
  function Unsigned(s: string): string {
    if s != [] && (s[0] == '+' || s[0] == '-') then s[1..] else s
  }

  /**
   * strconv.Atoi: an optional `+` or `-`, then one or more decimal digits
   * and nothing else, whose value fits in 64 bits; anything else (no digits,
   * a space, an underscore, a value out of range) is an error.
   */
  function Atoi(s: string): (r: Option<int>)
    ensures r.Some? ==> MinInt64 <= r.value <= MaxInt64
    ensures r.Some? ==> AllDigits(Unsigned(s)) && Unsigned(s) != []
    ensures r.Some? ==> r.value < 0 ==> s[0] == '-'
  {
    var digits := Unsigned(s);
    if digits == [] || !AllDigits(digits) then None
    else
      var v: int := if s[0] == '-' then -(DigitsValue(digits) as int) else DigitsValue(digits);
      if MinInt64 <= v <= MaxInt64 then Some(v) else None
  }

  /** The decimal digits of a natural number, most significant first, without leading zeros. */
  function Decimal(n: nat): (s: string)
    ensures s != [] && AllDigits(s)
    ensures |s| > 1 ==> s[0] != '0'
  {
    if n < 10 then ['0' + n as char] else Decimal(n / 10) + ['0' + (n % 10) as char]
  }

  /** The value of a number's decimal digits is the number. */
  lemma {:induction false} DecimalValue(n: nat)
    ensures DigitsValue(Decimal(n)) == n
  {
    if n >= 10 {
      var s := Decimal(n);
      assert s[..|s| - 1] == Decimal(n / 10);
      DecimalValue(n / 10);
    }
  }

  /** strconv.Itoa on a 64-bit int. */
  function Itoa(n: int): string {
    if n < 0 then "-" + Decimal(-n) else Decimal(n)
  }

  /** Atoi reads back every 64-bit integer Itoa writes. */
  lemma AtoiReadsItoa(n: int)
    requires MinInt64 <= n <= MaxInt64
    ensures Atoi(Itoa(n)) == Some(n)
  {
    if n < 0 {
      assert Itoa(n)[0] == '-';
      assert Unsigned(Itoa(n)) == Decimal(-n);
      DecimalValue(-n);
    } else {
      var d := Decimal(n);
      assert IsDigit(d[0]);
      assert Unsigned(d) == d;
      DecimalValue(n);
    }
  }

  /** A leading zero or `+` is accepted: canonical form is not required. */
  lemma AtoiAcceptsPaddedForms(zeros: string, n: int)
    requires forall i :: 0 <= i < |zeros| ==> zeros[i] == '0'
    requires 0 <= n <= MaxInt64
    ensures var d := zeros + Decimal(n);
      Atoi(d) == Some(n) && Atoi("+" + d) == Some(n) && Atoi("-" + d) == Some(-n)
  {
    var d := zeros + Decimal(n);
    PaddedDigits(zeros, n);
    AtoiSignedDigits(d, d);
    SignedDigits("+", d);
    SignedDigits("-", d);
  }

  /** A sign before a run of digits reads with that sign. */
  lemma SignedDigits(sign: string, d: string)
    requires sign == "+" || sign == "-"
    requires d != [] && AllDigits(d) && DigitsValue(d) <= MaxInt64
    ensures Atoi(sign + d) == Some(if sign == "-" then -(DigitsValue(d) as int) else DigitsValue(d))
  {
    assert (sign + d)[0] == sign[0];
    assert (sign + d)[1..] == d;
    AtoiSignedDigits(sign + d, d);
  }

  /** Zeros before the decimal digits of n leave a run of digits worth n. */
  lemma PaddedDigits(zeros: string, n: nat)
    requires forall i :: 0 <= i < |zeros| ==> zeros[i] == '0'
    ensures var d := zeros + Decimal(n);
      d != [] && AllDigits(d) && DigitsValue(d) == n && Unsigned(d) == d
  {
    var d := zeros + Decimal(n);
    LeadingZerosValue(zeros, Decimal(n));
    DecimalValue(n);
    assert IsDigit(d[0]);
  }

  /** Atoi of text whose unsigned part is a run of digits in range. */
  lemma AtoiSignedDigits(s: string, d: string)
    requires d != [] && AllDigits(d) && Unsigned(s) == d && DigitsValue(d) <= MaxInt64
    ensures Atoi(s) == Some(if s[0] == '-' then -(DigitsValue(d) as int) else DigitsValue(d))
  {
  }

  /** A run of zeros is worth nothing. */
  lemma {:induction false} ZerosValue(zeros: string)
    requires zeros != [] && forall i :: 0 <= i < |zeros| ==> zeros[i] == '0'
    ensures AllDigits(zeros) && DigitsValue(zeros) == 0
  {
    if |zeros| > 1 {
      ZerosValue(zeros[..|zeros| - 1]);
    }
  }

  /** Leading zeros do not change the value of a run of digits. */
  lemma {:induction false} LeadingZerosValue(zeros: string, d: string)
    requires forall i :: 0 <= i < |zeros| ==> zeros[i] == '0'
    requires AllDigits(d) && d != []
    ensures AllDigits(zeros + d) && DigitsValue(zeros + d) == DigitsValue(d)
  {
    var s := zeros + d;
    if zeros == [] {
      assert s == d;
    } else if |d| == 1 {
      assert s[..|s| - 1] == zeros;
      ZerosValue(zeros);
    } else {
      assert s[..|s| - 1] == zeros + d[..|d| - 1];
      LeadingZerosValue(zeros, d[..|d| - 1]);
    }
  }

  /** Text that is not a signed run of digits is refused. */
  lemma AtoiRefusesOtherText()
    ensures Atoi("") == None
    ensures Atoi("-") == None
    ensures Atoi(" 5") == None
    ensures Atoi("5 ") == None
    ensures Atoi("1_000") == None
  {
    assert !IsDigit(" 5"[0]);
    assert !IsDigit("5 "[1]);
    assert !IsDigit("1_000"[1]);
  }

  /** One more than the largest 64-bit integer is out of range. */
  lemma AtoiRefusesOverflow()
    ensures Atoi(Itoa(MaxInt64 + 1)) == None
  {
    DecimalValue(MaxInt64 + 1);
  }

  // ---------------------------------------------------------------- query parameters

  /** url.Values.Get: the first value given for the name, or "" when there is none. */
  function QueryParam(query: map<string, seq<string>>, name: string): (v: string)
    ensures name !in query || query[name] == [] ==> v == ""
    ensures name in query && query[name] != [] ==> v == query[name][0]
  {
    if name in query && query[name] != [] then query[name][0] else ""
  }

  /** QueryParamInt: the parameter's integer value and true, or 0 and false. */
  function QueryParamInt(query: map<string, seq<string>>, name: string): (r: (int, bool))
    ensures r.1 <==> Atoi(QueryParam(query, name)).Some?
    ensures r.1 ==> r.0 == Atoi(QueryParam(query, name)).value
    ensures !r.1 ==> r.0 == 0
    ensures QueryParam(query, name) == "" ==> r == (0, false)
  {
    var value := QueryParam(query, name);
    if value == "" then (0, false)
    else match Atoi(value)
      case None => (0, false)
      case Some(v) => (v, true)
  }

  /** An integer parameter given more than once is read from its first value only. */
  lemma QueryParamIntReadsFirstValue(query: map<string, seq<string>>, name: string, n: int, rest: seq<string>)
    requires MinInt64 <= n <= MaxInt64
    requires name in query && query[name] == [Itoa(n)] + rest
    ensures QueryParamInt(query, name) == (n, true)
  {
    AtoiReadsItoa(n);
  }

  /** A positive integer read from text, or the default. */
  function PositiveOr(text: string, default: int): (v: int)
    requires default >= 1
    ensures v >= 1
    ensures Atoi(text).Some? && Atoi(text).value >= 1 ==> v == Atoi(text).value
    ensures Atoi(text).None? || Atoi(text).value < 1 ==> v == default
  {
    match Atoi(text)
    case Some(n) => if n < 1 then default else n
    case None => default
  }

  /**
   * GetPaginationParams: `page` and `page_size`, each replaced by its
   * default (1 and 25) when it is missing, not an integer, or below 1.
   */
  function GetPaginationParams(query: map<string, seq<string>>): (r: (int, int))
    ensures r.0 >= 1 && r.1 >= 1
    ensures var p := Atoi(QueryParam(query, "page"));
      r.0 == if p.Some? && p.value >= 1 then p.value else DefaultPage
    ensures var p := Atoi(QueryParam(query, "page_size"));
      r.1 == if p.Some? && p.value >= 1 then p.value else DefaultPageSize
  {
    (PositiveOr(QueryParam(query, "page"), DefaultPage), PositiveOr(QueryParam(query, "page_size"), DefaultPageSize))
  }

  /** A request with no pagination parameters gets the first page of 25. */
  lemma NoParamsGivesDefaults(query: map<string, seq<string>>)
    requires "page" !in query && "page_size" !in query
    ensures GetPaginationParams(query) == (1, 25)
  {
  }

  // ---------------------------------------------------------------- CalculatePagination

  /** ⌈a / b⌉ for positive a and b. */
  function CeilDiv(a: int, b: int): (q: int)
    requires a > 0 && b > 0
    ensures q >= 1
    ensures (q - 1) * b < a <= q * b
  {
    var q := (a + b - 1) / b;
    assert q * b <= a + b - 1 < q * b + b;
    q
  }

  /**
   * CalculatePagination: the number of pages of `pageSize` items that hold
   * `totalCount` items (none when either is not positive), and the page
   * clamped into 1..totalPages.
   */
  function CalculatePagination(totalCount: int, page: int, pageSize: int): (r: Pagination)
    ensures r.totalCount == totalCount && r.pageSize == pageSize
    ensures totalCount > 0 && pageSize > 0 ==>
      r.totalPages >= 1 && (r.totalPages - 1) * pageSize < totalCount <= r.totalPages * pageSize
    ensures !(totalCount > 0 && pageSize > 0) ==> r.totalPages == 0
    ensures r.currentPage >= 1
    ensures r.totalPages > 0 ==> r.currentPage <= r.totalPages
    ensures 1 <= page && (r.totalPages == 0 || page <= r.totalPages) ==> r.currentPage == page
    ensures r.totalPages > 0 && page > r.totalPages ==> r.currentPage == r.totalPages
    ensures page < 1 ==> r.currentPage == 1
  {
    var totalPages := if totalCount > 0 && pageSize > 0 then CeilDiv(totalCount, pageSize) else 0;
    var clamped := if page > totalPages && totalPages > 0 then totalPages else page;
    var current := if clamped < 1 then 1 else clamped;
    Pagination(current, pageSize, totalPages, totalCount)
  }

  /** The page count is the least number of pages that holds every item. */
  lemma TotalPagesIsLeast(totalCount: int, pageSize: int, pages: int)
    requires totalCount > 0 && pageSize > 0
    requires pages * pageSize >= totalCount
    ensures CalculatePagination(totalCount, 1, pageSize).totalPages <= pages
  {
    var t := CalculatePagination(totalCount, 1, pageSize).totalPages;
    assert (t - 1) * pageSize < pages * pageSize;
    assert (t - 1 - pages) * pageSize < 0;
    NegativeFactor(t - 1 - pages, pageSize);
  }

  /** A product with a positive factor is negative only when the other factor is. */
  lemma NegativeFactor(x: int, y: int)
    requires y > 0 && x * y < 0
    ensures x < 0
  {
  }

  /** Clamping is idempotent: a page the function returns is returned unchanged. */
  lemma PaginationIsIdempotent(totalCount: int, page: int, pageSize: int)
    ensures var r := CalculatePagination(totalCount, page, pageSize);
      CalculatePagination(totalCount, r.currentPage, pageSize) == r
  {
  }

  // ---------------------------------------------------------------- FetchUserAndRespond

  const MsgUserNotFound := "User not found"
  const MsgUserFetchFailed := "Failed to retrieve user details"
  const MsgUserConvertFailed := "Failed to process user details"

  /**
   * FetchUserAndRespond: the user read by id (in the caller's transaction)
   * is sent with the caller's status and message; no such user is a 404,
   * any other read failure a 500.
   */
  function FetchUserAndRespond(users: seq<User>, userId: string, fault: Option<DbError>, successStatus: int,
                               successMessage: string, format: int -> string): (r: Reply)
    ensures r.Json?
    ensures fault.Some? ==> r == ErrorResponse(StatusInternalServerError, MsgUserFetchFailed)
    ensures fault.None? && userId !in UserIds(users) ==> r == ErrorResponse(StatusNotFound, MsgUserNotFound)
    ensures fault.None? && userId in UserIds(users) ==>
      r.status == successStatus && r.body.message == successMessage &&
      (IsSuccessStatus(successStatus) ==> r.body.data.UserData? && r.body.data.user.userId == userId)
  {
    match GetUserByID(users, userId, fault)
    case Err(e) =>
      if e == UserNotFound then ErrorResponse(StatusNotFound, MsgUserNotFound)
      else ErrorResponse(StatusInternalServerError, MsgUserFetchFailed)
    case Ok(u) =>
      match DBUserToAPIUser(Some(u), format)
      case Err(_) => ErrorResponse(StatusInternalServerError, MsgUserConvertFailed)
      case Ok(apiUser) => Respond(successStatus, UserData(apiUser), successMessage)
  }

  // ---------------------------------------------------------------- CheckGameAccessAndScorekeeper

  const MsgGameNotFound := "Game not found"
  const MsgGameAccessFailed := "Failed to verfiy game access"
  const MsgNotScorekeeper := "You are not authorized to modify this game"

  /** The user is the game's current scorekeeper. */
  predicate IsScorekeeper(g: Game, userId: string)
    ensures !g.currentScorekeeperUserId.valid ==> !IsScorekeeper(g, userId)
  {
    g.currentScorekeeperUserId.valid && g.currentScorekeeperUserId.str == userId
  }

  /**
   * CheckGameAccessAndScorekeeper: the game when the user is its current
   * scorekeeper, otherwise the reply already sent (404 no game, 500 a read
   * failure, 403 another scorekeeper or none).
   */
  function CheckGameAccessAndScorekeeper(games: seq<Game>, gameId: string, userId: string, fault: Option<DbError>)
    : (r: Result<Game, Reply>)
    ensures r.Ok? <==> fault.None? && FindGame(games, gameId).Some? && IsScorekeeper(FindGame(games, gameId).value, userId)
    ensures r.Ok? ==> r.value in games && r.value.gameId == gameId && IsScorekeeper(r.value, userId)
    ensures fault.Some? ==> r == Err(ErrorResponse(StatusInternalServerError, MsgGameAccessFailed))
    ensures fault.None? && gameId !in GameIds(games) ==> r == Err(ErrorResponse(StatusNotFound, MsgGameNotFound))
    ensures fault.None? && FindGame(games, gameId).Some? && !IsScorekeeper(FindGame(games, gameId).value, userId) ==>
      r == Err(ErrorResponse(StatusForbidden, MsgNotScorekeeper))
  {
    match GetGameByID(games, gameId, fault)
    case Err(e) =>
      if e == GameNotFound then Err(ErrorResponse(StatusNotFound, MsgGameNotFound))
      else Err(ErrorResponse(StatusInternalServerError, MsgGameAccessFailed))
    case Ok(g) =>
      if !IsScorekeeper(g, userId) then Err(ErrorResponse(StatusForbidden, MsgNotScorekeeper))
      else Ok(g)
  }

  /** Under the primary key, access is granted exactly to the scorekeeper of the one game with that id. */
  lemma ScorekeeperAccessIsExact(games: seq<Game>, i: int, userId: string)
    requires GamesValid(games) && 0 <= i < |games|
    ensures CheckGameAccessAndScorekeeper(games, games[i].gameId, userId, None).Ok? <==> IsScorekeeper(games[i], userId)
  {
    GameByIdIsUnique(games, i);
  }
}
