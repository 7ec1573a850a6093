/** DBUserToAPIUser and DBProviderIdentityToLinkedAccount: nullable columns to optional fields. */
module ConvertUser {
  import opened Wrappers
  import opened DbUtils
  import opened Tables
  import opened ApiModels

  const MsgNilUser := "cannot convert nil db user to api user"
  const MsgNilIdentity := "cannot convert nil db user provider to api linked account"

  /** A valid nullable text becomes present with the same text; NULL becomes absent. */
  function OptionalText(n: SqlNullString): (r: Option<string>)
    ensures r.Some? <==> n.valid
    ensures r.Some? ==> r.value == n.str
  {
    if n.valid then Some(n.str) else None
  }

  /** The nullable text a JSON field stands for. */
  function FromOptional(o: Option<string>): SqlNullString {
    if o.Some? then SqlNullString(o.value, true) else NullText
  }

  /** NULL as the driver scans it carries no text. */
  predicate Canonical(n: SqlNullString) {
    n.valid || n.str == ""
  }

  /** No information in a scanned nullable column is lost by the conversion. */
  lemma OptionalRoundTrip(n: SqlNullString)
    requires Canonical(n)
    ensures FromOptional(OptionalText(n)) == n
  {
  }

  /** NullString then OptionalText: an empty string is absent, any other text present. */
  lemma NullStringIsOptional(s: string)
    ensures OptionalText(NullString(s)) == if s == "" then None else Some(s)
  {
  }

  /**
   * DBUserToAPIUser. `format` stands for RFC 3339 formatting of a timestamp;
   * avatar_source is never copied.
   */
  function DBUserToAPIUser(dbUser: Option<User>, format: int -> string): (r: Result<ApiUser, string>)
    ensures dbUser.None? <==> r.Err?
    ensures r.Err? ==> r.error == MsgNilUser
    ensures r.Ok? ==> var u := dbUser.value; var a := r.value;
      a.userId == u.userId && a.username == u.username && a.statsPrivacy == u.statsPrivacy
      && a.createdAt == u.createdAt && a.updatedAt == u.updatedAt && a.avatarSource.None?
      && (a.email.Some? <==> u.email.valid) && (a.email.Some? ==> a.email.value == u.email.str)
      && (a.displayName.Some? <==> u.displayName.valid) && (a.displayName.Some? ==> a.displayName.value == u.displayName.str)
      && (a.avatarUrl.Some? <==> u.avatarUrl.valid) && (a.avatarUrl.Some? ==> a.avatarUrl.value == u.avatarUrl.str)
      && (a.uiTheme.Some? <==> u.uiTheme.valid) && (a.uiTheme.Some? ==> a.uiTheme.value == u.uiTheme.str)
      && (a.colorTheme.Some? <==> u.colorTheme.valid) && (a.colorTheme.Some? ==> a.colorTheme.value == u.colorTheme.str)
      && (a.lastLoginAt.Some? <==> u.lastLoginAt.valid)
      && (a.lastLoginAt.Some? ==> a.lastLoginAt.value == format(u.lastLoginAt.time))
  {
    match dbUser
    case None => Err(MsgNilUser)
    case Some(u) =>
      Ok(ApiUser(u.userId, u.username, OptionalText(u.email), OptionalText(u.displayName), OptionalText(u.avatarUrl),
                 u.statsPrivacy, None, OptionalText(u.uiTheme), OptionalText(u.colorTheme), u.createdAt, u.updatedAt,
                 if u.lastLoginAt.valid then Some(format(u.lastLoginAt.time)) else None))
  }

  /** The nullable texts of a scanned user row can be read back from its API user. */
  lemma ApiUserKeepsUserText(u: User, format: int -> string)
    requires Canonical(u.email) && Canonical(u.displayName) && Canonical(u.avatarUrl)
    requires Canonical(u.uiTheme) && Canonical(u.colorTheme)
    ensures var a := DBUserToAPIUser(Some(u), format).value;
      FromOptional(a.email) == u.email && FromOptional(a.displayName) == u.displayName
      && FromOptional(a.avatarUrl) == u.avatarUrl && FromOptional(a.uiTheme) == u.uiTheme
      && FromOptional(a.colorTheme) == u.colorTheme
  {
    OptionalRoundTrip(u.email);
    OptionalRoundTrip(u.displayName);
    OptionalRoundTrip(u.avatarUrl);
    OptionalRoundTrip(u.uiTheme);
    OptionalRoundTrip(u.colorTheme);
  }

  /** DBProviderIdentityToLinkedAccount: the provider name and the provider's optional details. */
  function DBProviderIdentityToLinkedAccount(identity: Option<ProviderIdentity>): (r: Result<LinkedAccount, string>)
    ensures identity.None? <==> r.Err?
    ensures r.Err? ==> r.error == MsgNilIdentity
    ensures r.Ok? ==> var pi := identity.value; var a := r.value;
      a.providerName == pi.providerName
      && (a.providerDisplayName.Some? <==> pi.providerDisplayName.valid)
      && (a.providerDisplayName.Some? ==> a.providerDisplayName.value == pi.providerDisplayName.str)
      && (a.providerAvatarUrl.Some? <==> pi.providerAvatarUrl.valid)
      && (a.providerAvatarUrl.Some? ==> a.providerAvatarUrl.value == pi.providerAvatarUrl.str)
      && (a.providerEmail.Some? <==> pi.providerEmail.valid)
      && (a.providerEmail.Some? ==> a.providerEmail.value == pi.providerEmail.str)
  {
    match identity
    case None => Err(MsgNilIdentity)
    case Some(pi) =>
      Ok(LinkedAccount(pi.providerName, OptionalText(pi.providerDisplayName), OptionalText(pi.providerAvatarUrl),
                       OptionalText(pi.providerEmail)))
  }
}
