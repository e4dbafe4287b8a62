/**
 * The stub provider used by integration tests: no state, no network, every operation
 * a constant success.
 */
module TestProvider {
  import opened Wrappers
  import opened Auth

  const Name := "testprovider"
  const AuthURL := "https://www.example.com/auth"
  const AccessToken := "token"
  const User := "test"

  /** One hour, in the seconds `now` is counted in. */
  const Hour := 3600

  /** Accepts every token, expired or not. */
  function Valid(t: Token): (ok: bool)
    ensures ok
  {
    true
  }

  /** Revocation always succeeds. */
  function Revoke(t: Token): (err: Option<string>)
    ensures err.None?
  {
    None
  }

  /** The session URL is fixed; the anti-forgery state is ignored. */
  function StartSession(state: string): (s: Session)
    ensures s.authURL == AuthURL
  {
    Session(AuthURL)
  }

  /** Every code is exchanged for the token "token", expiring one hour from `now`. */
  function Exchange(code: string, now: int): (r: Result<Token, string>)
    ensures r.Success?
    ensures r.value.accessToken == AccessToken && r.value.expiry == Some(now + Hour)
  {
    Success(Token(AccessToken, Some(now + Hour)))
  }

  /** Every token belongs to the user "test". */
  function Username(t: Token): (u: string)
    ensures u == User
  {
    User
  }

  /**
   * A token just obtained from `Exchange` passes the token's own check until `ExpiryDelta`
   * seconds before the hour is up, and not after.
   */
  lemma ExchangedTokenLastsAnHour(code: string, now: int, later: int)
    ensures TokenValid(Exchange(code, now).value, later) <==> later + ExpiryDelta <= now + Hour
  {
  }

  /** Two sessions started with different states are indistinguishable. */
  lemma StartSessionIgnoresState(s1: string, s2: string)
    ensures StartSession(s1) == StartSession(s2)
  {
  }
}
