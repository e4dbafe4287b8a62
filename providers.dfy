/**
 * The provider interface as a tagged variant: the concrete provider is chosen when it is
 * built, and every capability dispatches on it. The Google variant's remote answers are
 * inputs; the stub ignores them.
 */
module Providers {
  import opened Wrappers
  import opened Auth
  import Google
  import TestProvider

  datatype Provider = GoogleProvider(google: Google.Google) | Stub

  /** The provider's name tells the variants apart. */
  function Name(p: Provider): (n: string)
    ensures n == Google.Name <==> p.GoogleProvider?
    ensures n == TestProvider.Name <==> p.Stub?
  {
    match p
    case GoogleProvider(_) => Google.Name
    case Stub => TestProvider.Name
  }

  function Valid(p: Provider, t: Token, now: int, r: Google.Remote): bool {
    match p
    case GoogleProvider(g) => Google.Valid(g, t, now, r)
    case Stub => TestProvider.Valid(t)
  }

  function Username(p: Provider, t: Token, lookup: Option<Google.UserInfo>): string {
    match p
    case GoogleProvider(_) => Google.Username(lookup)
    case Stub => TestProvider.Username(t)
  }

  function StartSession(p: Provider, state: string, authCodeURL: (string, string) -> string): Session {
    match p
    case GoogleProvider(g) => Google.StartSession(g, state, authCodeURL)
    case Stub => TestProvider.StartSession(state)
  }

  function Exchange(p: Provider, code: string, now: int, exchange: string -> Result<Token, string>): Result<Token, string> {
    match p
    case GoogleProvider(g) => Google.Exchange(g, code, exchange)
    case Stub => TestProvider.Exchange(code, now)
  }

  function Revoke(p: Provider, t: Token, get: string -> Option<string>): Option<string> {
    match p
    case GoogleProvider(g) => Google.Revoke(g, t, get)
    case Stub => TestProvider.Revoke(t)
  }

  /**
   * The token's own check is enforced by the Google variant only: it refuses every expired
   * (or empty) token, while the stub accepts those too.
   */
  lemma ExpiryEnforcedOnlyByGoogle(p: Provider, t: Token, now: int, r: Google.Remote)
    requires !TokenValid(t, now)
    ensures Valid(p, t, now, r) <==> p.Stub?
  {
    if p.GoogleProvider? {
      Google.ExpiredTokenRejected(p.google, t, now, r);
    }
  }

  /** The stub accepts every token its own `Exchange` hands out, at any time. */
  lemma StubAcceptsItsOwnTokens(code: string, now: int, later: int, r: Google.Remote)
    ensures Valid(Stub, Exchange(Stub, code, now, _ => Failure("")).value, later, r)
  {
  }
}
