/**
 * The values every provider works with: the OAuth token it is asked to judge and the
 * session it starts. Time is an integer count of seconds supplied by the caller.
 */
module Auth {
  import opened Wrappers

  /**
   * An OAuth 2 token: the access token string and the instant it expires; `None` is the
   * zero expiry time, a token that never expires.
   */
  datatype Token = Token(accessToken: string, expiry: Option<int>)

  /** How long before its expiry the OAuth 2 library already treats a token as expired. */
  const ExpiryDelta := 10

  /** The library's expiry test: a token with an expiry is expired from `ExpiryDelta` seconds before it. */
  predicate Expired(t: Token, now: int) {
    match t.expiry
    case None => false
    case Some(e) => e - ExpiryDelta < now
  }

  /**
   * The token's own validity check (`Token.Valid` of the OAuth 2 library): it carries an
   * access token and is not expired at `now`.
   */
  function TokenValid(t: Token, now: int): (ok: bool)
    ensures ok ==> t.accessToken != ""
    ensures t.accessToken != "" && t.expiry.None? ==> ok
    ensures t.accessToken != "" && t.expiry.Some? ==> (ok <==> now + ExpiryDelta <= t.expiry.value)
  {
    t.accessToken != "" && !Expired(t, now)
  }

  /** A token valid at `now` was valid at every earlier instant too. */
  lemma ValidEarlier(t: Token, earlier: int, now: int)
    requires earlier <= now && TokenValid(t, now)
    ensures TokenValid(t, earlier)
  {
  }

  /** What `StartSession` hands back: the URL the user must visit to authenticate. */
  datatype Session = Session(authURL: string)
}
