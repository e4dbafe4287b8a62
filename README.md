# cashier: authentication providers and the client workflow, in Dafny

cashier is an SSH certificate authority. A user authenticates with an OAuth provider,
and the command-line client `cashier` sends the resulting credential to the server. The
server signs a fresh public key, and the client installs the certificate in the local
SSH agent. This project models three parts of that system and proves properties of each.

- **The Google provider** (`server/auth/google/google.go`), module `Google`.
  - Construction from the server's `auth` configuration: a whitelist set built from the user list, and an optional hosted domain.
  - The trust decision `Valid`, a chain of early returns, in the order the code makes them:
    1. whitelist;
    2. token expiry;
    3. API client;
    4. tokeninfo call;
    5. audience;
    6. userinfo call;
    7. hosted domain.
  - The username, which is the e-mail address up to its first `@`.
  - The session URL, the code exchange and revocation.
  - Every call to Google or to the OAuth library is an input (`Remote`, or a function parameter).
- **The stub provider** (`server/auth/testprovider/testprovider.go`), module `TestProvider`. Every operation is a constant success. Module `Providers` puts the two providers behind one tagged variant, as the server's provider interface does.
- **The client** (`cmd/cashier/main.go`), module `Client`.
  - `ObtainCreds` builds the `Authorization` credential:
    - `"Bearer " + token` in browser mode;
    - otherwise the Basic credential of section 2 of RFC 7617, which is `"Basic "` followed by the standard base64 (section 4 of RFC 4648) of `username:password`.
  - The base64 encoder is module `Base64`. It is proved against an independent strict decoder, in both directions.
  - `Run` is `main`: a straight-line sequence of effectful steps, six of which (configuration, key pair, signing, agent dial, certificate install, saving the public files) end the process with `log.Fatal` on failure; launching the browser only prints a notice, and the credential prompt and the success message cannot fail. It returns the trace of steps taken and how the run ended.
  - What the terminal, browser, key generator, authority, agent and file system answer is an input (`Outcomes`).

Time is an integer count of seconds supplied by the caller. A token passes its own check (`Token.Valid` of the OAuth 2 library, `Auth.TokenValid`) when its access token is non-empty and it does not expire within the next 10 seconds; a token with the zero expiry time never expires.

Where the code's behaviour is easy to misread, the model follows the code:

- `Valid` consults the whitelist (which costs a userinfo call) before it looks at the token's expiry (google.go:67-72). `ExpiredTokenStillLooksUpEmail` states the consequence.
- `main` obtains the credential before it generates the key pair (main.go:66-68).
- The agent socket is closed by `defer` (main.go:81). `log.Fatal` exits the process without running deferred calls, so the socket is closed only after a complete run (`CloseAgent`).
- The stub provider's `Valid` accepts every token, expired or not. Expiry is enforced by the Google provider only (`Providers.ExpiryEnforcedOnlyByGoogle`).
- A failed e-mail lookup reads as the empty address. If the configured user list contains an empty entry, such a user passes the whitelist check (`Google.EmptyEntryAdmitsFailedLookup`).

## Model

| member | source | states |
|---|---|---|
| Base64.SextetChar | cmd/cashier/main.go:48 | an alphabet character is never the padding character |
| Base64.CharSextet | cmd/cashier/main.go:48 | a character that is read back as a value is the character of that value in the alphabet |
| Base64.SextetRoundTrip | cmd/cashier/main.go:48 | every 6-bit value survives the trip through its alphabet character |
| Base64.JoinSplit | cmd/cashier/main.go:48 | three octets split into four sextets join back to the same octets |
| Base64.SplitJoin | cmd/cashier/main.go:48 | four sextets joined into three octets split back to the same sextets |
| Base64.EncodeGroup | cmd/cashier/main.go:48 | a full group of three octets encodes to four characters |
| Base64.EncodeOne | cmd/cashier/main.go:48 | a final single octet encodes to four characters, two of them padding |
| Base64.EncodeTwo | cmd/cashier/main.go:48 | a final pair of octets encodes to four characters, one of them padding |
| Base64.Encode | cmd/cashier/main.go:48 | the padded text is 4 * ceil(n / 3) characters long for n octets |
| Base64.DecodeEncodeGroup | cmd/cashier/main.go:48 | decoding the encoding of a full group gives the three octets back |
| Base64.DecodeEncodeOne | cmd/cashier/main.go:48 | decoding a doubly padded final group gives the single octet back |
| Base64.DecodeEncodeTwo | cmd/cashier/main.go:48 | decoding a singly padded final group gives the two octets back |
| Base64.DecodeEncodeLast | cmd/cashier/main.go:48 | the encoding of 1 to 3 octets is one final group that decodes to those octets |
| Base64.DecodeEncode | cmd/cashier/main.go:48 | decoding undoes encoding for every octet string |
| Base64.EncodeDecodeGroup | cmd/cashier/main.go:48 | a group the decoder accepts is the encoding of the three octets it yields |
| Base64.EncodeDecodeLast | cmd/cashier/main.go:48 | a final group the decoder accepts (padding bits zero) is the encoding of what it yields |
| Base64.EncodeDecode | cmd/cashier/main.go:48 | every text the strict decoder accepts is exactly the encoding of its result |
| Base64.DecodeIffEncode | cmd/cashier/main.go:48 | the decoder yields b from s if and only if s is the encoding of b |
| Client.Ascii | cmd/cashier/main.go:32-33 | the prefixes are the bytes of their ASCII text, byte for byte |
| Client.ObtainCreds | cmd/cashier/main.go:36-51 | each credential starts with exactly one of "Bearer " and "Basic ", chosen by the browser flag alone; "Bearer " is followed by the token itself; the text after "Basic " decodes to username ":" password |
| Client.FollowTakesPrefix | cmd/cashier/main.go:53-91 | a run takes a prefix of its plan, in plan order |
| Client.FollowEndsAtAbort | cmd/cashier/main.go:53-91 | a fatal end is at the last step taken, that step fails, and no earlier step fails |
| Client.FollowCompletes | cmd/cashier/main.go:53-91 | a run completes if and only if no step of its plan fails, and then it has taken the whole plan |
| Client.Run | cmd/cashier/main.go:53-91 | the trace and the ending of main are those of following the program-order plan up to the first fatal failure |
| Client.IssueCertificate | cmd/cashier/main.go:66-90 | from the credential prompt on, the run follows the key, signing, agent, install and save steps up to the first fatal failure |
| Client.MainPlanSteps | cmd/cashier/main.go:56-89 | the plan is config, browser steps in browser mode, credential, key pair, signing with that credential, agent dial, install, save, success message, socket close |
| Client.RunFollowsProgramOrder | cmd/cashier/main.go:53-91 | every run is a prefix of the program-order plan, no step before the last fails, and a fatal end names the failing last step |
| Client.ConfigFailureStopsAtOnce | cmd/cashier/main.go:56-59 | an unreadable configuration ends the run before any browser, credential, key or network step |
| Client.PreludeNeverAborts | cmd/cashier/main.go:60-66 | with the configuration read, the browser steps never end the run and it reaches the credential prompt |
| Client.BrowserFailureIsNotFatal | cmd/cashier/main.go:60-66 | a browser that fails to launch only adds the notice; the run goes on to read the credential |
| Client.KeyFailureStopsBeforeSigning | cmd/cashier/main.go:66-71 | a key-generation failure ends the run right after the credential and key steps; signing is never attempted |
| Client.SignFailureStopsBeforeAgent | cmd/cashier/main.go:73-76 | a signing failure ends the run there; the agent is never dialled |
| Client.AgentFailureLeavesFilesUnsaved | cmd/cashier/main.go:77-85 | a failed agent dial or install ends the run fatally before the public files are saved, success is reported or the socket is closed |
| Client.SaveFailureIsNotReported | cmd/cashier/main.go:86-88 | a failure to save the public files ends the run there, before "Credentials added." |
| Client.CompleteRun | cmd/cashier/main.go:53-91 | when every fatal step succeeds, the run takes the whole plan and completes |
| Client.SuccessIffAllSucceed | cmd/cashier/main.go:86-89 | the run completes, prints "Credentials added." and closes the socket if and only if every fatal step succeeded |
| Auth.TokenValid | server/auth/google/google.go:70 | a valid token has a non-empty access token; with one, a token without expiry is always valid and one with expiry e is valid exactly while now + 10 <= e |
| Auth.ValidEarlier | server/auth/google/google.go:70 | a token valid at some instant was valid at every earlier instant |
| Google.DomainOption | server/auth/google/google.go:38 | the domain option is the configured value, or "" when the key is missing |
| Google.New | server/auth/google/google.go:33-53 | fails, with the fixed message, exactly when there is neither a domain nor a listed user; otherwise the whitelist is exactly the listed users, the domain is the option, and the OAuth client carries the configured id, secret, callback and the e-mail and profile scopes |
| Google.Email | server/auth/google/google.go:116-126 | the e-mail address from the lookup, or "" when the lookup failed |
| Google.LocalPart | server/auth/google/google.go:130 | the result is a prefix of the address without "@", ending either at the end of the address or at its first "@" |
| Google.Username | server/auth/google/google.go:129-131 | the username is the e-mail address up to its first "@" ("" for a failed lookup) |
| Google.Rank | server/auth/google/google.go:66-94 | each check has its place in the order in which Valid makes them |
| Google.Evaluate | server/auth/google/google.go:66-94 | accepts if and only if every check passes; a rejection names a check that fails, and every check before it passes |
| Google.UnlistedEmailRejected | server/auth/google/google.go:67-69 | with a whitelist, an unlisted e-mail address is rejected at the first check |
| Google.FailedEmailLookupRejected | server/auth/google/google.go:67-69 | with a whitelist that lacks "", a failed e-mail lookup is rejected |
| Google.EmptyEntryAdmitsFailedLookup | server/auth/google/google.go:67-69 | a listed "" lets a failed e-mail lookup pass the whitelist, so the token can be accepted |
| Google.ExpiredTokenRejected | server/auth/google/google.go:70-72 | a token that fails its own check is rejected whatever Google answers |
| Google.RemoteFailureRejected | server/auth/google/google.go:73-89 | a failed API client, tokeninfo call or userinfo call gives false |
| Google.ForeignAudienceRejected | server/auth/google/google.go:83-85 | a token issued to another OAuth client is rejected |
| Google.OtherDomainRejected | server/auth/google/google.go:90-93 | with a domain configured, a user of another hosted domain is rejected |
| Google.Valid | server/auth/google/google.go:66-94 | Valid is true if and only if the user is listed (or there is no whitelist), the token passes its own check, the API client is built, tokeninfo answers with this client as audience, userinfo answers, and the hosted domain matches (or none is configured) |
| Google.RemoteCallsMade | server/auth/google/google.go:67-86 | the e-mail lookup is made exactly when there is a whitelist; tokeninfo is called exactly when the user passed the whitelist, the token its own check and the API client was built; userinfo is called exactly when, in addition, tokeninfo named this client as audience |
| Google.ExpiredTokenStillLooksUpEmail | server/auth/google/google.go:67-72 | with a whitelist, an expired token still costs the e-mail lookup and nothing after it |
| Google.StartSession | server/auth/google/google.go:104-108 | the session URL is the library's authorization URL for the state, with the domain as hint |
| Google.Exchange | server/auth/google/google.go:110-113 | the exchange fails exactly when the library's exchange fails, with the same error, and otherwise returns the library's access token unchanged |
| Google.RevokeURL | server/auth/google/google.go:18 | the revocation URL is the endpoint followed by the access token verbatim |
| Google.RevokeURLIdentifiesToken | server/auth/google/google.go:97-101 | two tokens share a revocation URL if and only if their access tokens are equal |
| Google.Revoke | server/auth/google/google.go:97-101 | revocation reports an error exactly when the GET of the revocation URL fails |
| TestProvider.Valid | server/auth/testprovider/testprovider.go:31-33 | every token is accepted |
| TestProvider.Revoke | server/auth/testprovider/testprovider.go:36-38 | revocation never fails |
| TestProvider.StartSession | server/auth/testprovider/testprovider.go:41-45 | the session URL is the fixed example URL |
| TestProvider.Exchange | server/auth/testprovider/testprovider.go:48-53 | every code gives the token "token" expiring one hour after now |
| TestProvider.Username | server/auth/testprovider/testprovider.go:56-58 | every token belongs to "test" |
| TestProvider.ExchangedTokenLastsAnHour | server/auth/testprovider/testprovider.go:48-53 | an exchanged token passes its own check exactly until 10 seconds before the hour after the exchange is up |
| TestProvider.StartSessionIgnoresState | server/auth/testprovider/testprovider.go:41-45 | sessions started with different states are equal |
| Providers.Name | server/auth/google/google.go:61-63 | the provider name is "google" exactly for the Google provider and "testprovider" exactly for the stub (whose `Name` is server/auth/testprovider/testprovider.go:26-28) |
| Providers.ExpiryEnforcedOnlyByGoogle | server/auth/testprovider/testprovider.go:31-33 | a token that fails its own check passes Valid if and only if the provider is the stub |
| Providers.StubAcceptsItsOwnTokens | server/auth/testprovider/testprovider.go:48-53 | the stub accepts every token its own exchange hands out, at any later time |

## Left out

- The OAuth 2 library is not part of this model.
  - Its token check (`Auth.TokenValid`) is restated from the library's documented behaviour. Time is whole seconds, so sub-second expiry instants are not modelled.
  - Its authorization URL (`AuthCodeURL`), code exchange and HTTP client are inputs.
  - The OAuth client's `Endpoint` (`google.Endpoint`, google.go:47) is a library constant used only by those calls, so `Google.OAuthConfig` does not carry it.
- The Google API client (`googleapi.New`, tokeninfo, userinfo) is represented by the answers it returns (`Remote`). `newClient` (google.go:56-58) is folded into those answers.
- `TestProvider.New` is not modelled: the stub has no state, so the variant `Providers.Stub` stands for it.
- The configuration file parser (`cmd/cashier/client/config.go`) and `pflag` parsing are not part of this model. Whether the configuration could be read is an outcome.
- Terminal I/O is an input: the typed token, username and password.
  - How `fmt.Scanln` splits the typed line is not modelled.
  - The error that `speakeasy.Ask` may return is ignored by the code (main.go:47). The model has no such error.
- The internals of the client steps are not modelled. Each step is an outcome that succeeds or fails fatally:
  - key generation (key type and size);
  - the signing request;
  - the agent protocol;
  - certificate installation;
  - writing the public files;
  - launching the browser, whose failure only prints a notice.
- Printed messages and the `log.Fatal` format strings are not modelled. The success message is the `ReportSuccess` step.
- Client.Run: the signed certificate, the private key and the agent client do not flow from step to step. Only the credential is carried, into the `Sign` step.
- The dispatch functions of `Providers` (`Valid`, `Username`, `StartSession`, `Exchange`, `Revoke`) are plain case analysis over the two providers. Their properties are those of the providers' own members.
- Google.Email: the lookup made by `Email` and the userinfo call made later in `Valid` are separate calls, modelled as separate inputs that may disagree.
- The server-side strings (e-mail addresses, the domain, the whitelist) are Dafny strings, sequences of code points, where Go compares bytes. On valid UTF-8 the whitelist test and the split at the first `@` give the same results either way; invalid UTF-8 is not modelled.
