/**
 * SearchUsers: a case-insensitive search of the users table by username or
 * display name with LIKE patterns, ranked by how well each row matches and
 * then by username, cut to a limit.
 */
module UserSearch {
  import opened Wrappers
  import opened Text
  import opened DbUtils
  import opened Tables
  import opened Ordering

  const DefaultSearchLimit := 10

  /** One row of the search result. */
  datatype SearchResult = SearchResult(userId: string, username: string, displayName: SqlNullString, avatarUrl: SqlNullString)

  function ToSearchResult(u: User): SearchResult {
    SearchResult(u.userId, u.username, u.displayName, u.avatarUrl)
  }

  // ---------------------------------------------------------------- LIKE

  /**
   * SQL LIKE with PostgreSQL's default escape character: `%` matches any
   * run of characters, `_` any one character, `\` makes the next character
   * literal. A pattern ending in a lone `\` matches nothing (PostgreSQL
   * rejects it; the patterns built here always end in `%`).
   */
  predicate Like(s: string, p: string)
    decreases |p|
  {
    if p == [] then s == []
    else if p[0] == '%' then exists k :: 0 <= k <= |s| && Like(s[k..], p[1..])
    else if p[0] == '\\' then |p| >= 2 && s != [] && s[0] == p[1] && Like(s[1..], p[2..])
    else if p[0] == '_' then s != [] && Like(s[1..], p[1..])
    else s != [] && s[0] == p[0] && Like(s[1..], p[1..])
  }

  predicate IsLikeSpecial(c: char) {
    c == '%' || c == '_' || c == '\\'
  }

  /** Escapes the LIKE metacharacters of a search text so that it matches only itself. */
  function EscapeLike(q: string): (r: string)
    ensures |r| >= |q|
  {
    if q == [] then []
    else (if IsLikeSpecial(q[0]) then ['\\', q[0]] else [q[0]]) + EscapeLike(q[1..])
  }

  lemma LikeAnything(s: string)
    ensures Like(s, "%")
  {
    assert "%"[1..] == [];
    assert Like(s[|s|..], "%"[1..]);
  }

  /** An escaped text followed by a pattern matches exactly the strings that start with that text and continue with a match of the rest. */
  lemma {:induction false} LikeEscaped(s: string, q: string, rest: string)
    ensures Like(s, EscapeLike(q) + rest) <==> StartsWith(s, q) && Like(s[|q|..], rest)
  {
    if q == [] {
      assert EscapeLike(q) + rest == rest;
      assert s[0..] == s;
    } else {
      EscapedHead(s, q, rest);
      if s != [] {
        LikeEscaped(s[1..], q[1..], rest);
        StartsWithCons(s, q);
        if |q| <= |s| {
          assert s[1..][|q| - 1..] == s[|q|..];
        }
      }
    }
  }

  /** The first character of an escaped text matches itself only, literally. */
  lemma EscapedHead(s: string, q: string, rest: string)
    requires q != []
    ensures Like(s, EscapeLike(q) + rest) <==> s != [] && s[0] == q[0] && Like(s[1..], EscapeLike(q[1..]) + rest)
  {
    var tail := EscapeLike(q[1..]) + rest;
    if IsLikeSpecial(q[0]) {
      assert EscapeLike(q) + rest == ['\\', q[0]] + tail;
      LikeEscapedChar(s, q[0], tail);
    } else {
      assert EscapeLike(q) + rest == [q[0]] + tail;
      LikeLiteralChar(s, q[0], tail);
    }
  }

  /** `\` followed by any character matches that character. */
  lemma LikeEscapedChar(s: string, c: char, tail: string)
    ensures Like(s, ['\\', c] + tail) <==> s != [] && s[0] == c && Like(s[1..], tail)
  {
    var p := ['\\', c] + tail;
    assert p[0] == '\\' && p[1] == c && p[2..] == tail;
  }

  /** A character that is not special matches itself. */
  lemma LikeLiteralChar(s: string, c: char, tail: string)
    requires !IsLikeSpecial(c)
    ensures Like(s, [c] + tail) <==> s != [] && s[0] == c && Like(s[1..], tail)
  {
    var p := [c] + tail;
    assert p[0] == c && p[1..] == tail;
  }

  /** A prefix holds when its first character does and the rest is a prefix of the rest. */
  lemma StartsWithCons(s: string, q: string)
    requires s != [] && q != []
    ensures StartsWith(s, q) <==> s[0] == q[0] && StartsWith(s[1..], q[1..])
  {
    if s[0] == q[0] && StartsWith(s[1..], q[1..]) {
      assert s[..|q|] == [s[0]] + s[1..][..|q| - 1];
      assert q == [q[0]] + q[1..];
    }
    if StartsWith(s, q) {
      assert s[1..][..|q| - 1] == s[..|q|][1..];
    }
  }

  /** The escaped contains-pattern is strings.Contains. */
  lemma EscapedContainsPattern(s: string, q: string)
    ensures Like(s, "%" + EscapeLike(q) + "%") <==> Contains(s, q)
  {
    var p := "%" + EscapeLike(q) + "%";
    assert p[0] == '%' && p[1..] == EscapeLike(q) + "%";
    forall k | 0 <= k <= |s|
      ensures Like(s[k..], p[1..]) <==> OccursAt(s, q, k)
    {
      LikeEscaped(s[k..], q, "%");
      if StartsWith(s[k..], q) {
        LikeAnything(s[k..][|q|..]);
        assert s[k..][..|q|] == s[k..k + |q|];
      }
      if OccursAt(s, q, k) {
        assert s[k..][..|q|] == s[k..k + |q|];
      }
    }
  }

  /** The escaped prefix-pattern is strings.HasPrefix. */
  lemma EscapedPrefixPattern(s: string, q: string)
    ensures Like(s, EscapeLike(q) + "%") <==> StartsWith(s, q)
  {
    LikeEscaped(s, q, "%");
    if StartsWith(s, q) {
      LikeAnything(s[|q|..]);
    }
  }

  // ---------------------------------------------------------------- the query

  /** The texts bound to $2, $1 and $3: the exact text, the contains-pattern and the prefix-pattern. */
  datatype Patterns = Patterns(exact: string, contains: string, prefix: string)

  /** As written, the lowered query goes into the patterns unescaped. */
  function PatternsAsWritten(q: string): (p: Patterns)
    ensures p.exact == Lower(q)
    ensures |p.contains| == |q| + 2 && p.contains[0] == '%' && p.contains[|q| + 1] == '%'
    ensures |p.prefix| == |q| + 1 && p.prefix[|q|] == '%'
    ensures forall i :: 0 <= i < |q| ==> p.contains[i + 1] == LowerChar(q[i]) && p.prefix[i] == LowerChar(q[i])
  {
    Patterns(Lower(q), "%" + Lower(q) + "%", Lower(q) + "%")
  }

  /** With the LIKE metacharacters of the query escaped. */
  function EscapedPatterns(q: string): (p: Patterns)
    ensures p.exact == Lower(q)
    ensures p.contains == "%" + EscapeLike(Lower(q)) + "%" && p.prefix == EscapeLike(Lower(q)) + "%"
  {
    Patterns(Lower(q), "%" + EscapeLike(Lower(q)) + "%", EscapeLike(Lower(q)) + "%")
  }

  /** `LOWER(username) ILIKE $1 OR LOWER(display_name) ILIKE $1`; a NULL display name never matches. */
  predicate RowMatches(u: User, pat: Patterns)
    ensures pat.contains == "%" ==> RowMatches(u, pat)
    ensures !u.displayName.valid ==> (RowMatches(u, pat) <==> Like(Lower(u.username), pat.contains))
  {
    LikeAnything(Lower(u.username));
    Like(Lower(u.username), pat.contains) || (u.displayName.valid && Like(Lower(u.displayName.str), pat.contains))
  }

  /** The CASE of the ORDER BY. */
  function RankWith(u: User, pat: Patterns): (rank: int)
    ensures 1 <= rank <= 5
    ensures rank == 1 <==> Lower(u.username) == pat.exact
  {
    if Lower(u.username) == pat.exact then 1
    else if u.displayName.valid && Lower(u.displayName.str) == pat.exact then 2
    else if Like(Lower(u.username), pat.prefix) then 3
    else if u.displayName.valid && Like(Lower(u.displayName.str), pat.prefix) then 4
    else 5
  }

  function SearchKey(pat: Patterns): User -> SortKey {
    u => (RankWith(u, pat), u.username)
  }

  /** The rows the WHERE clause keeps, in table order. */
  function MatchingRows(users: seq<User>, pat: Patterns): (r: seq<User>)
    ensures forall u :: u in r <==> u in users && RowMatches(u, pat)
    ensures multiset(r) <= multiset(users)
  {
    if users == [] then []
    else
      assert forall u :: u in users <==> u == users[0] || u in users[1..] by {
        assert users == [users[0]] + users[1..];
      }
      assert multiset(users) == multiset{users[0]} + multiset(users[1..]) by {
        assert users == [users[0]] + users[1..];
      }
      (if RowMatches(users[0], pat) then [users[0]] else []) + MatchingRows(users[1..], pat)
  }

  /** LIMIT: a limit of zero or less is replaced by 10. */
  function EffectiveLimit(limit: int): (n: nat)
    ensures limit > 0 ==> n == limit
    ensures limit <= 0 ==> n == DefaultSearchLimit
  {
    if limit <= 0 then DefaultSearchLimit else limit
  }

  function Min(a: nat, b: nat): nat {
    if a <= b then a else b
  }

  /** The whole search with the given patterns: filter, order, limit, and the row scan. */
  function SearchWith(users: seq<User>, q: string, limit: int, pat: Patterns, fault: Option<DbError>)
    : (r: Result<seq<SearchResult>, Error>)
    ensures q == "" ==> r == Ok([])
    ensures q != "" && fault.Some? ==> r == Err(Database(fault.value))
    ensures q != "" && fault.None? ==> r.Ok?
    ensures r.Ok? ==> |r.value| <= EffectiveLimit(limit)
    ensures r.Ok? ==> forall i :: 0 <= i < |r.value| ==> FromMatchingUser(users, pat, r.value[i])
  {
    if q == "" then Ok([])
    else if fault.Some? then Err(Database(fault.value))
    else
      var ranked := SortBy(MatchingRows(users, pat), SearchKey(pat));
      var n := Min(EffectiveLimit(limit), |ranked|);
      var rows := seq(n, i requires 0 <= i < n => ToSearchResult(ranked[i]));
      RankedRowsMatch(users, pat);
      MappedRowsMatch(users, pat, ranked, rows);
      Ok(rows)
  }

  /** Ordering the matching rows keeps exactly those rows. */
  lemma RankedRowsMatch(users: seq<User>, pat: Patterns)
    ensures forall u :: u in SortBy(MatchingRows(users, pat), SearchKey(pat)) ==> u in users && RowMatches(u, pat)
  {
    var m := MatchingRows(users, pat);
    forall u | u in SortBy(m, SearchKey(pat))
      ensures u in users && RowMatches(u, pat)
    {
      assert u in multiset(SortBy(m, SearchKey(pat)));
      assert u in multiset(m);
    }
  }

  /** A result row that is the conversion of a user matching the pattern. */
  predicate FromMatchingUser(users: seq<User>, pat: Patterns, row: SearchResult) {
    exists u :: u in users && RowMatches(u, pat) && row == ToSearchResult(u)
  }

  /** Rows converted one by one from matching users each come from such a user. */
  lemma MappedRowsMatch(users: seq<User>, pat: Patterns, ranked: seq<User>, rows: seq<SearchResult>)
    requires forall u :: u in ranked ==> u in users && RowMatches(u, pat)
    requires |rows| <= |ranked| && forall i :: 0 <= i < |rows| ==> rows[i] == ToSearchResult(ranked[i])
    ensures forall i :: 0 <= i < |rows| ==> FromMatchingUser(users, pat, rows[i])
  {
    forall i | 0 <= i < |rows|
      ensures FromMatchingUser(users, pat, rows[i])
    {
      assert ranked[i] in ranked;
    }
  }

  /** SearchUsers as written: `_` and `%` in the query act as wildcards. */
  function SearchUsersAsWritten(users: seq<User>, q: string, limit: int, fault: Option<DbError>)
    : (r: Result<seq<SearchResult>, Error>)
    ensures q != "" && fault.None? ==> r.Ok?
    ensures r.Ok? ==> |r.value| <= EffectiveLimit(limit)
    ensures r.Ok? ==> forall i :: 0 <= i < |r.value| ==> FromMatchingUser(users, PatternsAsWritten(q), r.value[i])
  {
    SearchWith(users, q, limit, PatternsAsWritten(q), fault)
  }

  // ---------------------------------------------------------------- what the search means

  /** A case-insensitive substring match on username or display name. */
  predicate SubstringMatch(u: User, q: string) {
    Contains(Lower(u.username), Lower(q)) || (u.displayName.valid && Contains(Lower(u.displayName.str), Lower(q)))
  }

  /** Exact username, exact display name, username prefix, display-name prefix, anything else. */
  function IntendedRank(u: User, q: string): (rank: int)
    ensures 1 <= rank <= 5
  {
    if Lower(u.username) == Lower(q) then 1
    else if u.displayName.valid && Lower(u.displayName.str) == Lower(q) then 2
    else if StartsWith(Lower(u.username), Lower(q)) then 3
    else if u.displayName.valid && StartsWith(Lower(u.displayName.str), Lower(q)) then 4
    else 5
  }

  function IntendedKey(q: string): User -> SortKey {
    u => (IntendedRank(u, q), u.username)
  }

  /** With escaping, the WHERE clause is the substring match and the CASE is the intended rank. */
  lemma EscapedQueryMeansSubstring(u: User, q: string)
    ensures RowMatches(u, EscapedPatterns(q)) <==> SubstringMatch(u, q)
    ensures RankWith(u, EscapedPatterns(q)) == IntendedRank(u, q)
  {
    EscapedContainsPattern(Lower(u.username), Lower(q));
    EscapedPrefixPattern(Lower(u.username), Lower(q));
    if u.displayName.valid {
      EscapedContainsPattern(Lower(u.displayName.str), Lower(q));
      EscapedPrefixPattern(Lower(u.displayName.str), Lower(q));
    }
  }

  lemma UnderscorePatternMatchesAbc()
    ensures Like("abc", "%a_c%")
  {
    assert "%a_c%"[0] == '%' && "%a_c%"[1..] == "a_c%";
    LikeAnything("");
    assert Like("c", "c%") by { assert "c"[1..] == "" && "c%"[1..] == "%"; }
    assert Like("bc", "_c%") by { assert "bc"[1..] == "c" && "_c%"[1..] == "c%"; }
    assert Like("abc", "a_c%") by { assert "abc"[1..] == "bc" && "a_c%"[1..] == "_c%"; }
    assert "abc"[0..] == "abc";
  }

  /** Without escaping, "a_c" finds the user "abc", whose name does not contain "a_c". */
  lemma UnescapedUnderscoreIsAWildcard()
    ensures var u := User("u1", "abc", NullText, NullText, NullText, NullText, "public", NullText, NullText, 0, 0, NullInstant);
      RowMatches(u, PatternsAsWritten("a_c")) && !SubstringMatch(u, "a_c")
  {
    var u := User("u1", "abc", NullText, NullText, NullText, NullText, "public", NullText, NullText, 0, 0, NullInstant);
    assert Lower("abc") == "abc";
    assert Lower("a_c") == "a_c";
    assert "%" + Lower("a_c") + "%" == "%a_c%";
    UnderscorePatternMatchesAbc();
    assert !Contains("abc", "a_c") by {
      assert !OccursAt("abc", "a_c", 0) by { assert "abc"[0..3][1] == 'b'; }
    }
  }

  /**
   * SearchUsers, with the query's LIKE metacharacters escaped: an empty
   * query or a failed query returns no rows; otherwise at most the limit
   * (10 when the limit is not positive) of the users that match by
   * substring.
   */
  function SearchUsers(users: seq<User>, q: string, limit: int, fault: Option<DbError>): (r: Result<seq<SearchResult>, Error>)
    ensures q == "" ==> r == Ok([])
    ensures q != "" && fault.Some? ==> r == Err(Database(fault.value))
    ensures q != "" && fault.None? ==> r.Ok?
    ensures r.Ok? ==> |r.value| <= EffectiveLimit(limit)
    ensures r.Ok? ==> ResultsAreMatches(users, q, r.value)
  {
    SearchResultsAreMatches(users, q, limit, fault);
    SearchWith(users, q, limit, EscapedPatterns(q), fault)
  }

  /** Every result row is a user of the table that matches the query by substring. */
  predicate ResultsAreMatches(users: seq<User>, q: string, results: seq<SearchResult>) {
    forall i :: 0 <= i < |results| ==> IsMatchFor(users, q, results[i])
  }

  /** The row comes from a user of the table that matches the query by substring. */
  predicate IsMatchFor(users: seq<User>, q: string, row: SearchResult) {
    exists u :: u in users && SubstringMatch(u, q) && row == ToSearchResult(u)
  }

  /** The result rows are the first rows of RankedMatches. */
  lemma SearchResultsAreMatches(users: seq<User>, q: string, limit: int, fault: Option<DbError>)
    ensures SearchWith(users, q, limit, EscapedPatterns(q), fault).Ok? ==>
      ResultsAreMatches(users, q, SearchWith(users, q, limit, EscapedPatterns(q), fault).value)
  {
    if q != "" && fault.None? {
      var ranked := RankedMatches(users, q);
      var results := SearchWith(users, q, limit, EscapedPatterns(q), fault).value;
      forall i | 0 <= i < |results|
        ensures IsMatchFor(users, q, results[i])
      {
        assert results[i] == ToSearchResult(ranked[i]);
        assert ranked[i] in ranked;
      }
    }
  }

  /** The ranking SearchUsers cuts its result from: every substring match, ordered by rank and then username. */
  function RankedMatches(users: seq<User>, q: string): (r: seq<User>)
    ensures SortedBy(r, IntendedKey(q))
    ensures forall u :: u in r <==> u in users && SubstringMatch(u, q)
  {
    var pat := EscapedPatterns(q);
    var r := SortBy(MatchingRows(users, pat), SearchKey(pat));
    assert SortedBy(r, IntendedKey(q)) && forall u :: u in r <==> u in users && SubstringMatch(u, q) by {
      forall u
        ensures SearchKey(pat)(u) == IntendedKey(q)(u) && (RowMatches(u, pat) <==> SubstringMatch(u, q))
      {
        EscapedQueryMeansSubstring(u, q);
      }
      assert forall u :: u in r <==> u in multiset(r);
    }
    r
  }

  /**
   * The search returns the top of the ranking: the first rows of
   * RankedMatches, as many as the limit allows; every match left out ranks
   * at or after every row returned.
   */
  lemma SearchUsersIsTopOfRanking(users: seq<User>, q: string, limit: int)
    requires q != ""
    ensures var ranked := RankedMatches(users, q);
      var n := Min(EffectiveLimit(limit), |ranked|);
      SearchUsers(users, q, limit, None) == Ok(seq(n, i requires 0 <= i < n => ToSearchResult(ranked[i])))
      && forall i, j :: 0 <= i < n <= j < |ranked| ==> KeyLe(IntendedKey(q)(ranked[i]), IntendedKey(q)(ranked[j]))
  {
    var ranked := RankedMatches(users, q);
    var n := Min(EffectiveLimit(limit), |ranked|);
    TakeIsTop(ranked, IntendedKey(q), n);
    forall i, j | 0 <= i < n <= j < |ranked|
      ensures KeyLe(IntendedKey(q)(ranked[i]), IntendedKey(q)(ranked[j]))
    {
      assert ranked[..n][i] == ranked[i];
    }
  }

  /** A user whose username is exactly the query comes first. */
  lemma ExactUsernameComesFirst(users: seq<User>, q: string, u: User)
    requires u in users && Lower(u.username) == Lower(q)
    ensures RankedMatches(users, q) != [] && IntendedRank(RankedMatches(users, q)[0], q) == 1
  {
    assert Contains(Lower(u.username), Lower(q)) by {
      assert OccursAt(Lower(u.username), Lower(q), 0);
    }
    var ranked := RankedMatches(users, q);
    var j :| 0 <= j < |ranked| && ranked[j] == u;
    SortedPairwise(ranked, IntendedKey(q), 0, j);
  }
}
