/**
 * Username derivation for accounts created at first sign-in: a sanitiser
 * that turns any text into a well-formed username, and the generator that
 * picks the text to sanitise (the provider's name, else the local part of the
 * e-mail address, else a random name). The random part of a name is a
 * parameter: the first characters of a freshly generated UUID.
 */
module Username {
  import opened Text

  const MaxUsernameLength := 30
  const MinUsernameLength := 3
  const FallbackPrefix := "user_"

  predicate IsLowerHexDigit(c: char) {
    '0' <= c <= '9' || 'a' <= c <= 'f'
  }

  /** The first eight characters of uuid.NewString(): lower-case hexadecimal digits. */
  type UuidPrefix = s: string | |s| == 8 && forall i :: 0 <= i < |s| ==> IsLowerHexDigit(s[i])
    witness "00000000"

  predicate IsUsernameChar(c: char) {
    'a' <= c <= 'z' || '0' <= c <= '9' || c == '_'
  }

  predicate AllUsernameChars(s: string) {
    forall i :: 0 <= i < |s| ==> IsUsernameChar(s[i])
  }

  predicate NoDoubleUnderscore(s: string) {
    forall i :: 0 <= i < |s| - 1 ==> !(s[i] == '_' && s[i + 1] == '_')
  }

  predicate NoEdgeUnderscore(s: string) {
    s != [] ==> s[0] != '_' && s[|s| - 1] != '_'
  }

  /** What every sanitised name looks like. */
  predicate IsWellFormedUsername(s: string) {
    MinUsernameLength <= |s| <= MaxUsernameLength
    && AllUsernameChars(s) && NoEdgeUnderscore(s) && NoDoubleUnderscore(s)
  }

  // ---- the steps of SanitizeUsername, in order ----

  function SeparatorToUnderscore(c: char): char {
    if c == ' ' || c == '.' || c == '-' then '_' else c
  }

  /** Step 2: the replacer that maps ' ', '.' and '-' to '_'. */
  function ReplaceSeparators(s: string): (r: string)
    ensures |r| == |s|
    ensures forall i :: 0 <= i < |s| ==> r[i] == SeparatorToUnderscore(s[i])
  {
    seq(|s|, i requires 0 <= i < |s| => SeparatorToUnderscore(s[i]))
  }

  /**
   * Step 3: removing every run of characters outside [a-z0-9_]. The result
   * holds exactly the allowed characters of s, in their order (see
   * KeepUsernameCharsAppend), and is s itself exactly when nothing is dropped.
   */
  function KeepUsernameChars(s: string): (r: string)
    ensures AllUsernameChars(r)
    ensures |r| <= |s|
  {
    if s == [] then []
    else (if IsUsernameChar(s[0]) then [s[0]] else []) + KeepUsernameChars(s[1..])
  }

  function TrimLeadingUnderscores(s: string): (r: string)
    ensures |r| <= |s| && r == s[|s| - |r|..]
    ensures r != [] ==> r[0] != '_'
  {
    if s != [] && s[0] == '_' then TrimLeadingUnderscores(s[1..]) else s
  }

  function TrimTrailingUnderscores(s: string): (r: string)
    ensures |r| <= |s| && r == s[..|r|]
    ensures r != [] ==> r[|r| - 1] != '_'
    ensures forall j :: |r| <= j < |s| ==> s[j] == '_'
  {
    if s != [] && s[|s| - 1] == '_' then TrimTrailingUnderscores(s[..|s| - 1]) else s
  }

  /** Step 4 (and the trim after truncation): strings.Trim(s, "_"). */
  function TrimUnderscores(s: string): (r: string)
    ensures NoEdgeUnderscore(r)
    ensures exists k :: 0 <= k <= |s| - |r| && OccursAt(s, r, k)
  {
    var l := TrimLeadingUnderscores(s);
    var r := TrimTrailingUnderscores(l);
    assert OccursAt(s, r, |s| - |l|);
    r
  }

  /** Step 5: every run of underscores becomes one underscore. */
  function CollapseUnderscores(s: string): (r: string)
    ensures NoDoubleUnderscore(r)
    ensures |r| <= |s|
    ensures s != [] ==> r != [] && r[0] == s[0] && r[|r| - 1] == s[|s| - 1]
    ensures AllUsernameChars(s) ==> AllUsernameChars(r)
  {
    if |s| < 2 then s
    else if s[0] == '_' && s[1] == '_' then CollapseUnderscores(s[1..])
    else [s[0]] + CollapseUnderscores(s[1..])
  }

  /** Step 6: a name longer than 30 keeps its first 30 characters, trimmed again. */
  function Truncate(s: string): (r: string)
    ensures |r| <= MaxUsernameLength || r == s
    ensures |s| <= MaxUsernameLength ==> r == s
  {
    if |s| > MaxUsernameLength then TrimUnderscores(s[..MaxUsernameLength]) else s
  }

  /** Steps 1 to 6: the sanitised text before the length fallback. */
  function Cleaned(username: string): string {
    Truncate(CollapseUnderscores(TrimUnderscores(KeepUsernameChars(ReplaceSeparators(Lower(username))))))
  }

  /**
   * SanitizeUsername. The result is always a well-formed username; it is the
   * cleaned text when that has at least three characters and the random
   * fallback name otherwise.
   */
  function SanitizeUsername(username: string, rnd: UuidPrefix): (r: string)
    ensures IsWellFormedUsername(r)
    ensures |Cleaned(username)| >= MinUsernameLength ==> r == Cleaned(username)
    ensures |Cleaned(username)| < MinUsernameLength ==> r == FallbackPrefix + rnd
  {
    var c := Cleaned(username);
    CleanedShape(username);
    if |c| < MinUsernameLength then
      FallbackIsWellFormed(rnd);
      FallbackPrefix + rnd
    else c
  }

  // ---- facts about the steps ----

  lemma {:induction false} TrimmedKeepsShape(s: string)
    requires AllUsernameChars(s) && NoDoubleUnderscore(s)
    ensures AllUsernameChars(TrimUnderscores(s)) && NoDoubleUnderscore(TrimUnderscores(s))
  {
    var r := TrimUnderscores(s);
    var k :| 0 <= k <= |s| - |r| && OccursAt(s, r, k);
    forall i | 0 <= i < |r|
      ensures r[i] == s[k + i] && IsUsernameChar(r[i])
    {
      assert r[i] == s[k..k + |r|][i];
    }
    forall i | 0 <= i < |r| - 1
      ensures !(r[i] == '_' && r[i + 1] == '_')
    {
      assert r[i] == s[k + i] && r[i + 1] == s[k + i + 1];
    }
  }

  /** With no double underscores, trimming can only drop the one trailing underscore. */
  lemma TrimOneTrailing(s: string)
    requires NoDoubleUnderscore(s) && s != [] && s[0] != '_'
    ensures |TrimUnderscores(s)| >= |s| - 1
  {
    assert TrimLeadingUnderscores(s) == s;
    if |s| >= 2 {
      assert !(s[|s| - 2] == '_' && s[|s| - 1] == '_');
    }
  }

  /** Every cleaned text is a well-formed username apart from its minimum length. */
  lemma CleanedShape(username: string)
    ensures var c := Cleaned(username);
      |c| <= MaxUsernameLength && AllUsernameChars(c) && NoEdgeUnderscore(c) && NoDoubleUnderscore(c)
  {
    var k := KeepUsernameChars(ReplaceSeparators(Lower(username)));
    var t := TrimUnderscores(k);
    TrimKeepsChars(k);
    var col := CollapseUnderscores(t);
    TruncateShape(col);
    assert Cleaned(username) == Truncate(col);
  }

  lemma TrimKeepsChars(s: string)
    requires AllUsernameChars(s)
    ensures AllUsernameChars(TrimUnderscores(s))
  {
    var t := TrimUnderscores(s);
    var k :| 0 <= k <= |s| - |t| && OccursAt(s, t, k);
    assert forall i :: 0 <= i < |t| ==> t[i] == s[k + i];
  }

  lemma TruncateShape(col: string)
    requires AllUsernameChars(col) && NoEdgeUnderscore(col) && NoDoubleUnderscore(col)
    ensures var c := Truncate(col);
      |c| <= MaxUsernameLength && AllUsernameChars(c) && NoEdgeUnderscore(c) && NoDoubleUnderscore(c)
      && (|col| > MaxUsernameLength ==> |c| >= MaxUsernameLength - 1)
  {
    if |col| > MaxUsernameLength {
      var p := col[..MaxUsernameLength];
      assert NoDoubleUnderscore(p) by {
        forall i | 0 <= i < |p| - 1 ensures !(p[i] == '_' && p[i + 1] == '_') {
          assert p[i] == col[i] && p[i + 1] == col[i + 1];
        }
      }
      TrimmedKeepsShape(p);
      TrimOneTrailing(p);
    }
  }

  lemma FallbackIsWellFormed(rnd: UuidPrefix)
    ensures IsWellFormedUsername(FallbackPrefix + rnd)
  {
    var s := FallbackPrefix + rnd;
    forall i | 0 <= i < |s| ensures IsUsernameChar(s[i]) {
      if i >= 5 { assert s[i] == rnd[i - 5]; }
    }
    forall i | 0 <= i < |s| - 1 ensures !(s[i] == '_' && s[i + 1] == '_') {
      if i >= 4 { assert s[i + 1] == rnd[i - 4]; }
    }
    assert s[|s| - 1] == rnd[7];
  }

  /** Nothing is dropped exactly when every character is allowed, and then s comes back. */
  lemma {:induction false} KeepUsernameCharsFixes(s: string)
    ensures |KeepUsernameChars(s)| == |s| <==> AllUsernameChars(s)
    ensures AllUsernameChars(s) ==> KeepUsernameChars(s) == s
  {
    if s != [] {
      KeepUsernameCharsFixes(s[1..]);
    }
  }

  /** The filter keeps exactly the allowed characters of s. */
  lemma {:induction false} KeepUsernameCharsMembers(s: string)
    ensures forall c :: c in KeepUsernameChars(s) <==> c in s && IsUsernameChar(c)
  {
    if s != [] {
      KeepUsernameCharsMembers(s[1..]);
      assert s == [s[0]] + s[1..];
    }
  }

  /** The filter distributes over concatenation, so it keeps the order of s. */
  lemma {:induction false} KeepUsernameCharsAppend(a: string, b: string)
    ensures KeepUsernameChars(a + b) == KeepUsernameChars(a) + KeepUsernameChars(b)
  {
    if a == [] {
      assert a + b == b;
    } else {
      assert (a + b)[0] == a[0];
      assert (a + b)[1..] == a[1..] + b;
      KeepUsernameCharsAppend(a[1..], b);
    }
  }

  lemma {:induction false} CollapseFixes(s: string)
    requires NoDoubleUnderscore(s)
    ensures CollapseUnderscores(s) == s
  {
    if |s| >= 2 {
      CollapseFixes(s[1..]);
    }
  }

  lemma TrimFixes(s: string)
    requires NoEdgeUnderscore(s)
    ensures TrimUnderscores(s) == s
  {
    assert TrimLeadingUnderscores(s) == s;
    assert TrimTrailingUnderscores(s) == s;
  }

  lemma LowerAndReplaceFix(s: string)
    requires AllUsernameChars(s)
    ensures ReplaceSeparators(Lower(s)) == s
  {
    assert Lower(s) == s;
    assert ReplaceSeparators(s) == s;
  }

  /** A well-formed username is left exactly as it is by every cleaning step. */
  lemma WellFormedIsCleaned(w: string)
    requires IsWellFormedUsername(w)
    ensures Cleaned(w) == w
  {
    LowerAndReplaceFix(w);
    KeepUsernameCharsFixes(w);
    TrimFixes(w);
    CollapseFixes(w);
  }

  lemma SanitizeKeepsWellFormed(w: string, rnd: UuidPrefix)
    requires IsWellFormedUsername(w)
    ensures SanitizeUsername(w, rnd) == w
  {
    WellFormedIsCleaned(w);
  }

  /** Sanitising a sanitised name changes nothing, whatever random text the second call draws. */
  lemma SanitizeIdempotent(username: string, rnd: UuidPrefix, rnd': UuidPrefix)
    ensures SanitizeUsername(SanitizeUsername(username, rnd), rnd') == SanitizeUsername(username, rnd)
  {
    WellFormedIsCleaned(SanitizeUsername(username, rnd));
  }

  /** The random part only matters when the cleaned text is too short. */
  lemma SanitizeIgnoresFreshForLongNames(username: string, rnd: UuidPrefix, rnd': UuidPrefix)
    requires |Cleaned(username)| >= MinUsernameLength
    ensures SanitizeUsername(username, rnd) == SanitizeUsername(username, rnd')
  {
  }

  // ---- GenerateUniqueUsername ----

  /** The text the generator sanitises: the base name, or else the e-mail's local part. */
  function Candidate(baseUsername: string, email: string): (c: string)
    ensures !IsBlank(baseUsername) ==> c == baseUsername
    ensures IsBlank(baseUsername) && !IsBlank(email) ==> StartsWith(email, c) && '@' !in c
    ensures IsBlank(baseUsername) && IsBlank(email) ==> c == baseUsername
  {
    if IsBlank(baseUsername) && !IsBlank(email) then BeforeFirst(email, '@') else baseUsername
  }

  /**
   * GenerateUniqueUsername (its error result is always nil, so only the name
   * is modelled). Every generated name is well formed, has at least four
   * characters and is never the bare word "user".
   */
  function GenerateUniqueUsername(baseUsername: string, email: string, rnd: UuidPrefix): (r: string)
    ensures IsWellFormedUsername(r) && |r| >= 4 && r != "user"
  {
    var candidate := Candidate(baseUsername, email);
    if IsBlank(candidate) then
      FallbackIsWellFormed(rnd);
      WellFormedIsCleaned(FallbackPrefix + rnd);
      SanitizeUsername(FallbackPrefix + rnd, rnd)
    else
      var sanitized := SanitizeUsername(candidate, rnd);
      if sanitized == "user" || |sanitized| < 4 then
        SuffixedIsWellFormed(sanitized, rnd);
        WellFormedIsCleaned(sanitized + "_" + rnd[..4]);
        SanitizeUsername(sanitized + "_" + rnd[..4], rnd)
      else sanitized
  }

  lemma SuffixedIsWellFormed(s: string, rnd: UuidPrefix)
    requires IsWellFormedUsername(s) && |s| <= 4
    ensures IsWellFormedUsername(s + "_" + rnd[..4])
  {
    var t := s + "_" + rnd[..4];
    forall i | 0 <= i < |t| ensures IsUsernameChar(t[i]) {
      if i > |s| { assert t[i] == rnd[i - |s| - 1]; }
    }
    forall i | 0 <= i < |t| - 1 ensures !(t[i] == '_' && t[i + 1] == '_') {
      if i >= |s| { assert t[i + 1] == rnd[i - |s|]; }
      if i == |s| - 1 { assert t[i] == s[|s| - 1]; }
    }
    assert t[|t| - 1] == rnd[3];
  }

  /** A base name that is already a good username is used verbatim. */
  lemma GenerateKeepsGoodBase(baseUsername: string, email: string, rnd: UuidPrefix)
    requires IsWellFormedUsername(baseUsername) && |baseUsername| >= 4 && baseUsername != "user"
    ensures GenerateUniqueUsername(baseUsername, email, rnd) == baseUsername
  {
    assert !IsSpace(baseUsername[0]);
    assert Candidate(baseUsername, email) == baseUsername;
    SanitizeKeepsWellFormed(baseUsername, rnd);
  }

  /** With no base name, a good e-mail local part becomes the username. */
  lemma GenerateUsesEmailLocalPart(baseUsername: string, email: string, rnd: UuidPrefix)
    requires IsBlank(baseUsername) && !IsBlank(email)
    requires var local := BeforeFirst(email, '@');
      IsWellFormedUsername(local) && |local| >= 4 && local != "user"
    ensures GenerateUniqueUsername(baseUsername, email, rnd) == BeforeFirst(email, '@')
  {
    var local := BeforeFirst(email, '@');
    assert Candidate(baseUsername, email) == local;
    assert !IsSpace(local[0]);
    SanitizeKeepsWellFormed(local, rnd);
  }

  /** With neither a base name nor an e-mail address the name is random. */
  lemma GenerateFallsBackToRandom(baseUsername: string, email: string, rnd: UuidPrefix)
    requires IsBlank(baseUsername) && IsBlank(email)
    ensures GenerateUniqueUsername(baseUsername, email, rnd) == FallbackPrefix + rnd
  {
    FallbackIsWellFormed(rnd);
    WellFormedIsCleaned(FallbackPrefix + rnd);
  }

  /** A short (or "user") sanitised name gets an underscore and four random characters. */
  lemma GenerateSuffixesShortNames(baseUsername: string, email: string, rnd: UuidPrefix)
    requires !IsBlank(Candidate(baseUsername, email))
    requires var s := SanitizeUsername(Candidate(baseUsername, email), rnd); s == "user" || |s| < 4
    ensures GenerateUniqueUsername(baseUsername, email, rnd)
      == SanitizeUsername(Candidate(baseUsername, email), rnd) + "_" + rnd[..4]
  {
    var s := SanitizeUsername(Candidate(baseUsername, email), rnd);
    SuffixedIsWellFormed(s, rnd);
    WellFormedIsCleaned(s + "_" + rnd[..4]);
  }
}
