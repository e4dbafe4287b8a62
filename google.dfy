/**
 * The Google provider: a whitelist of e-mail addresses and/or a hosted (G Suite) domain,
 * and a trust decision that consults Google's tokeninfo and userinfo endpoints.
 *
 * Every call to Google is an input here. `Email` makes its own userinfo call, separate
 * from the one `Valid` makes, so the two are independent inputs (`Remote.emailLookup`
 * and `Remote.userInfo`).
 */
module Google {
  import opened Wrappers
  import opened Auth

  const Name := "google"

  /** Prefix of the revocation request; the access token is appended verbatim. */
  const RevokeEndpoint := "https://accounts.google.com/o/oauth2/revoke?token="

  /** The two scopes the provider requests (the Google API's user e-mail and profile scopes). */
  const Scopes := ["https://www.googleapis.com/auth/userinfo.email",
                   "https://www.googleapis.com/auth/userinfo.profile"]

  const ConfigError := "either Google Apps domain or users whitelist must be specified"

  /** The server's `auth` configuration section as far as this provider reads it. */
  datatype AuthConfig = AuthConfig(
    oauthClientID: string,
    oauthClientSecret: string,
    oauthCallbackURL: string,
    providerOpts: map<string, string>,
    usersWhitelist: seq<string>)

  /** The OAuth 2 client configuration the provider keeps. */
  datatype OAuthConfig = OAuthConfig(clientID: string, clientSecret: string, redirectURL: string, scopes: seq<string>)

  datatype Google = Google(config: OAuthConfig, domain: string, whitelist: set<string>)

  /** The `domain` provider option; a missing key reads as the empty string, as a Go map lookup does. */
  function DomainOption(c: AuthConfig): (d: string)
    ensures "domain" !in c.providerOpts ==> d == ""
    ensures "domain" in c.providerOpts ==> d == c.providerOpts["domain"]
  {
    if "domain" in c.providerOpts then c.providerOpts["domain"] else ""
  }

  /**
   * Builds the provider. The whitelist holds exactly the listed users (duplicates collapse);
   * a configuration with neither a domain nor a user is refused.
   */
  method New(c: AuthConfig) returns (r: Result<Google, string>)
    ensures r.Failure? <==> DomainOption(c) == "" && |c.usersWhitelist| == 0
    ensures r.Failure? ==> r.error == ConfigError
    ensures r.Success? ==> forall u :: u in r.value.whitelist <==> u in c.usersWhitelist
    ensures r.Success? ==> r.value.domain == DomainOption(c)
    ensures r.Success? ==>
      r.value.config == OAuthConfig(c.oauthClientID, c.oauthClientSecret, c.oauthCallbackURL, Scopes)
  {
    var uw: set<string> := {};
    for i := 0 to |c.usersWhitelist|
      invariant forall u :: u in uw <==> u in c.usersWhitelist[..i]
    {
      uw := uw + {c.usersWhitelist[i]};
    }
    assert c.usersWhitelist[..|c.usersWhitelist|] == c.usersWhitelist;
    if |c.usersWhitelist| > 0 {
      assert c.usersWhitelist[0] in uw;
    }
    if DomainOption(c) == "" && |uw| == 0 {
      return Failure(ConfigError);
    }
    var config := OAuthConfig(c.oauthClientID, c.oauthClientSecret, c.oauthCallbackURL, Scopes);
    r := Success(Google(config, DomainOption(c), uw));
  }

  /** The user's profile as the userinfo endpoint returns it: e-mail and hosted domain. */
  datatype UserInfo = UserInfo(email: string, hd: string)

  /** The tokeninfo endpoint's answer: the client the token was issued to. */
  datatype TokenInfo = TokenInfo(audience: string)

  /**
   * The answers of the remote calls made while judging one token; `None` (or `false`)
   * is a failed call. `emailLookup` is the userinfo call made by `Email`, `service`
   * whether the API client could be built in `Valid`, `tokenInfo` and `userInfo` the two
   * calls `Valid` makes itself.
   */
  datatype Remote = Remote(
    emailLookup: Option<UserInfo>,
    service: bool,
    tokenInfo: Option<TokenInfo>,
    userInfo: Option<UserInfo>)

  /** The user's e-mail address, or "" when the lookup failed. */
  function Email(lookup: Option<UserInfo>): (e: string)
    ensures lookup.None? ==> e == ""
    ensures lookup.Some? ==> e == lookup.value.email
  {
    match lookup
    case None => ""
    case Some(ui) => ui.email
  }

  /** The text before the first `@`; the whole string when there is none. */
  function LocalPart(s: string): (r: string)
    ensures r <= s
    ensures '@' !in r
    ensures |r| < |s| ==> s[|r|] == '@'
  {
    if s == [] || s[0] == '@' then ""
    else [s[0]] + LocalPart(s[1..])
  }

  /** The username: the local part of the e-mail address, "" when the lookup failed. */
  function Username(lookup: Option<UserInfo>): (u: string)
    ensures lookup.None? ==> u == ""
    ensures u <= Email(lookup) && '@' !in u
    ensures |u| < |Email(lookup)| ==> Email(lookup)[|u|] == '@'
  {
    LocalPart(Email(lookup))
  }

  /** The checks `Valid` makes, in the order it makes them. */
  datatype Check = Whitelisted | Unexpired | ServiceCreated | TokenInfoFetched
                 | AudienceMatches | UserInfoFetched | DomainMatches

  const Checks: seq<Check> :=
    [Whitelisted, Unexpired, ServiceCreated, TokenInfoFetched, AudienceMatches, UserInfoFetched, DomainMatches]

  /** Where a check stands in `Checks`. */
  function Rank(c: Check): (k: nat)
    ensures k < |Checks| && Checks[k] == c
  {
    match c
    case Whitelisted => 0
    case Unexpired => 1
    case ServiceCreated => 2
    case TokenInfoFetched => 3
    case AudienceMatches => 4
    case UserInfoFetched => 5
    case DomainMatches => 6
  }

  /** Each check on its own, independent of the order in which `Valid` makes them. */
  predicate Passes(g: Google, t: Token, now: int, r: Remote, c: Check) {
    match c
    case Whitelisted => |g.whitelist| == 0 || Email(r.emailLookup) in g.whitelist
    case Unexpired => TokenValid(t, now)
    case ServiceCreated => r.service
    case TokenInfoFetched => r.tokenInfo.Some?
    case AudienceMatches => r.tokenInfo.Some? && r.tokenInfo.value.audience == g.config.clientID
    case UserInfoFetched => r.userInfo.Some?
    case DomainMatches => g.domain == "" || (r.userInfo.Some? && r.userInfo.value.hd == g.domain)
  }

  datatype Verdict = Accept | Reject(failed: Check)

  /**
   * The chain of early returns in `Valid`: the verdict is `Reject` of the first check,
   * in the order of `Checks`, that does not pass, and `Accept` only when all pass.
   */
  function Evaluate(g: Google, t: Token, now: int, r: Remote): (v: Verdict)
    ensures v.Accept? <==> forall c :: Passes(g, t, now, r, c)
    ensures v.Reject? ==> !Passes(g, t, now, r, v.failed)
    ensures v.Reject? ==> forall i :: 0 <= i < Rank(v.failed) ==> Passes(g, t, now, r, Checks[i])
  {
    var v :=
      if |g.whitelist| > 0 && Email(r.emailLookup) !in g.whitelist then Reject(Whitelisted)
      else if !TokenValid(t, now) then Reject(Unexpired)
      else if !r.service then Reject(ServiceCreated)
      else if r.tokenInfo.None? then Reject(TokenInfoFetched)
      else if r.tokenInfo.value.audience != g.config.clientID then Reject(AudienceMatches)
      else if r.userInfo.None? then Reject(UserInfoFetched)
      else if g.domain != "" && r.userInfo.value.hd != g.domain then Reject(DomainMatches)
      else Accept;
    assert v.Reject? ==> !Passes(g, t, now, r, v.failed);
    v
  }

  /**
   * The trust decision; never an error, every failure reads as `false`. It is `true` exactly
   * when the user is listed (or there is no whitelist), the token passes its own check, the
   * API client is built, tokeninfo answers with this client as audience, userinfo answers,
   * and the hosted domain matches (or none is configured).
   */
  function Valid(g: Google, t: Token, now: int, r: Remote): (ok: bool)
    ensures ok <==>
      && (|g.whitelist| == 0 || Email(r.emailLookup) in g.whitelist)
      && TokenValid(t, now)
      && r.service
      && r.tokenInfo.Some? && r.tokenInfo.value.audience == g.config.clientID
      && r.userInfo.Some?
      && (g.domain == "" || r.userInfo.value.hd == g.domain)
  {
    var v := Evaluate(g, t, now, r);
    if v.Accept? then
      assert Passes(g, t, now, r, AudienceMatches) && Passes(g, t, now, r, DomainMatches);
      true
    else
      false
  }

  /** With a whitelist, a user whose e-mail is not listed is refused, whatever else holds. */
  lemma UnlistedEmailRejected(g: Google, t: Token, now: int, r: Remote)
    requires |g.whitelist| > 0 && Email(r.emailLookup) !in g.whitelist
    ensures Evaluate(g, t, now, r) == Reject(Whitelisted)
    ensures !Valid(g, t, now, r)
  {
  }

  /** A failed e-mail lookup reads as "", so it is refused unless "" itself is listed. */
  lemma FailedEmailLookupRejected(g: Google, t: Token, now: int, r: Remote)
    requires |g.whitelist| > 0 && "" !in g.whitelist && r.emailLookup.None?
    ensures !Valid(g, t, now, r)
  {
  }

  /** A listed "" lets a failed e-mail lookup through the whitelist check. */
  lemma EmptyEntryAdmitsFailedLookup(g: Google, t: Token, now: int, r: Remote)
    requires "" in g.whitelist && r.emailLookup.None?
    requires g.domain == "" && TokenValid(t, now) && r.service && r.userInfo.Some?
    requires r.tokenInfo == Some(TokenInfo(g.config.clientID))
    ensures Valid(g, t, now, r)
  {
  }

  /** A token that fails its own check (expired, or without an access token) is refused whatever Google answers. */
  lemma ExpiredTokenRejected(g: Google, t: Token, now: int, r: Remote)
    requires !TokenValid(t, now)
    ensures !Valid(g, t, now, r)
  {
  }

  /** Fail closed: a failed API client, tokeninfo call or userinfo call gives `false`. */
  lemma RemoteFailureRejected(g: Google, t: Token, now: int, r: Remote)
    requires !r.service || r.tokenInfo.None? || r.userInfo.None?
    ensures !Valid(g, t, now, r)
  {
  }

  /** A token issued to another OAuth client is refused. */
  lemma ForeignAudienceRejected(g: Google, t: Token, now: int, r: Remote)
    requires r.tokenInfo.Some? && r.tokenInfo.value.audience != g.config.clientID
    ensures !Valid(g, t, now, r)
  {
  }

  /** With a domain configured, a user of another hosted domain is refused. */
  lemma OtherDomainRejected(g: Google, t: Token, now: int, r: Remote)
    requires g.domain != "" && r.userInfo.Some? && r.userInfo.value.hd != g.domain
    ensures !Valid(g, t, now, r)
  {
  }

  /** The remote calls `Valid` makes. */
  datatype Call = EmailUserInfoCall | TokenInfoCall | UserInfoCall

  /** The calls made on the way to verdict `v`: the whitelist lookup, then tokeninfo, then userinfo. */
  function CallsMade(g: Google, v: Verdict): (calls: seq<Call>)
    ensures |g.whitelist| > 0 <==> EmailUserInfoCall in calls
    ensures TokenInfoCall in calls <==> v.Accept? || Rank(v.failed) > Rank(ServiceCreated)
    ensures UserInfoCall in calls <==> v.Accept? || Rank(v.failed) > Rank(AudienceMatches)
  {
    var reached := (c: Check) => v.Accept? || Rank(v.failed) > Rank(c);
    (if |g.whitelist| > 0 then [EmailUserInfoCall] else [])
    + (if reached(ServiceCreated) then [TokenInfoCall] else [])
    + (if reached(AudienceMatches) then [UserInfoCall] else [])
  }

  /**
   * Which remote calls judging a token costs, in terms of the inputs: the e-mail lookup exactly
   * when there is a whitelist; tokeninfo exactly when the user passed the whitelist, the token
   * its own check and the API client was built; userinfo exactly when, in addition, tokeninfo
   * answered with this client as audience.
   */
  lemma RemoteCallsMade(g: Google, t: Token, now: int, r: Remote)
    ensures var calls := CallsMade(g, Evaluate(g, t, now, r));
      && (EmailUserInfoCall in calls <==> |g.whitelist| > 0)
      && (TokenInfoCall in calls <==>
            (|g.whitelist| == 0 || Email(r.emailLookup) in g.whitelist) && TokenValid(t, now) && r.service)
      && (UserInfoCall in calls <==>
            && (|g.whitelist| == 0 || Email(r.emailLookup) in g.whitelist) && TokenValid(t, now) && r.service
            && r.tokenInfo.Some? && r.tokenInfo.value.audience == g.config.clientID)
  {
  }

  /**
   * The whitelist is consulted before the token's own check: with a whitelist, even an
   * expired token costs a userinfo call, and nothing after it is called.
   */
  lemma ExpiredTokenStillLooksUpEmail(g: Google, t: Token, now: int, r: Remote)
    requires |g.whitelist| > 0 && !TokenValid(t, now)
    ensures CallsMade(g, Evaluate(g, t, now, r)) == [EmailUserInfoCall]
  {
  }

  /** The URL is the OAuth library's authorization URL for `state`, with the domain as `hd` hint. */
  function StartSession(g: Google, state: string, authCodeURL: (string, string) -> string): (s: Session)
    ensures s.authURL == authCodeURL(state, g.domain)
  {
    Session(authCodeURL(state, g.domain))
  }

  /** The code exchange is the OAuth library's; its token, or its error, reaches the caller unchanged. */
  function Exchange(g: Google, code: string, exchange: string -> Result<Token, string>): (r: Result<Token, string>)
    ensures r.Failure? <==> exchange(code).Failure?
    ensures r.Success? ==> r.value == exchange(code).value
    ensures r.Failure? ==> r.error == exchange(code).error
  {
    exchange(code)
  }

  /** The revocation request: the endpoint with the access token appended verbatim. */
  function RevokeURL(t: Token): (u: string)
    ensures |u| == |RevokeEndpoint| + |t.accessToken|
    ensures u[..|RevokeEndpoint|] == RevokeEndpoint && u[|RevokeEndpoint|..] == t.accessToken
  {
    RevokeEndpoint + t.accessToken
  }

  /** The revocation request names the token: two tokens share a revocation URL only when their access tokens are equal. */
  lemma RevokeURLIdentifiesToken(t1: Token, t2: Token)
    ensures RevokeURL(t1) == RevokeURL(t2) <==> t1.accessToken == t2.accessToken
  {
    if RevokeURL(t1) == RevokeURL(t2) {
      assert t1.accessToken == RevokeURL(t1)[|RevokeEndpoint|..];
    }
  }

  /** Revocation sends one GET to `RevokeURL(t)`; its error is reported, not swallowed. */
  function Revoke(g: Google, t: Token, get: string -> Option<string>): (err: Option<string>)
    ensures err.Some? <==> get(RevokeURL(t)).Some?
  {
    get(RevokeURL(t))
  }
}
