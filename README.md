# Auth0 login flow of opaitokens, in Dafny

This project models the `Auth0` login client of `auth/auth.go`. The client logs in to the
ChatGPT identity provider at `auth0.openai.com` on behalf of an email and password
(optionally with an MFA code). It returns an access token, or, in auth-for-code mode,
the pair `verifier|code` that a caller exchanges for tokens itself.

The model has these parts:

- `Wrappers`: `Option` and `Result`.
- `Text`: `strings.HasPrefix` and `strings.ReplaceAll`, with lemmas about replacing inside concatenations.
- `Protocol`: the vocabulary of one run. It holds the decoded HTTP replies (status, `Location`, parsed
  query, JSON body fields), the requests the client sends, and the twenty-two error values with their texts.
- `RequestUrl`: what `http.NewRequest` does with a URL built from the provider's text: the parse fails on
  a control character before the first `#`, or on a bad percent escape in the fragment.
- `AuthorizeUrl`: the authorize-URL build of `partTwo`. The regular-expression replacement of
  `code_challenge=[^&]+` is written out as a left-to-right scan, then the `sample_preauth_cookie` placeholder
  is replaced.
- `Email`: `checkEmail`, written as the unanchored search of its regular expression, with `\b` word boundaries.
- `Flow`: `partOne` … `partSeven`, `getAccessToken` and `getAccessTokenProxy`, written as pure functions.
  Each takes the finite sequence of replies the provider gives. Each step sends at most one request and
  reads one reply for each request it sends; a step that ends before sending reads none. Once the replies run out, the next request fails as if the connection were closed.
  This bounds the `partSix`/`partSeven` MFA loop. A run returns every request it sent and how it ended.
- `LoginProperties`: how each step classifies its reply, the order of requests over a whole run, and the
  threading of state, verifier and MFA code.
- `Auth`: the `Auth0` class. Its mutable fields are `accessToken`, `refreshToken`, `expires` and
  `authForCode`. Its methods are `Auth` and `AuthForCodeUrl`, each tied to the pure
  function `Authenticate`; `Finish`, tied to `Settle`; `StoreToken`, tied to `Stored`; and `GetRefreshToken`,
  which returns the field. The module also holds the cache and input guards and the expiry
  arithmetic.
- `Scenarios`: whole calls against scripted providers. They cover the happy path, auth-for-code mode,
  a 400 at the password page, an MFA challenge without a code, and a cached second call.

Time is Unix seconds as an integer. A call's clock readings, yesterday's date, the PKCE pair and the
replies are parameters (`Auth.World`).

## Model

| member | source | states |
|---|---|---|
| Auth.Authenticate | auth/auth.go:68-82 | one call of `Auth` (and, in auth-for-code mode with a local login, of `AuthForCodeUrl`, auth/auth.go:117-128): cache guard, input check, then the login run settled into the object; its properties are stated by CacheGuard, InputCheck, NetworkOnlyPastGuards, TokensOnlyFromGrant, CacheRoundTrip, CodeModeKeepsTokens, LocalLogin and GatewayLogin |
| Auth.Settle | auth/auth.go:449-467 | how a run's end shows in the object: a grant stores the body and returns its access token, a code pair or an error leaves the tokens; stated by Auth.Auth0.Finish and TokensOnlyFromGrant |
| Auth.Stored | auth/auth.go:460-463 | the tokens a 200 token body leaves, with expiry grant time plus `expires_in` minus 300 s; stated by Auth.Auth0.StoreToken and StoredExpiry |
| Auth.Auth0.constructor | auth/auth.go:35-61 | a new object holds no tokens, the zero `time.Time` as expiry, and auth-for-code mode off |
| Auth.Auth0.Auth | auth/auth.go:68-82 | the returned value, the requests sent and the new token fields are those of `Authenticate` for the old fields; `authForCode` is unchanged |
| Auth.Auth0.AuthForCodeUrl | auth/auth.go:117-128 | `authForCode` is set for good; result, requests and tokens are those of a local login in auth-for-code mode |
| Auth.Auth0.Finish | auth/auth.go:449-467 | a grant stores the body's tokens and returns the access token; a code pair or an error leaves the tokens and is returned |
| Auth.Auth0.StoreToken | auth/auth.go:459-463 | access and refresh token come from the body; expiry is grant time plus `expires_in` minus 300 seconds |
| Auth.Auth0.GetRefreshToken | auth/auth.go:89-91 | returns the stored refresh token |
| Auth.DefaultApiPrefix | auth/auth.go:98-108 | the gateway origin is `https://ai-` + date + `.fakeopen.com`, and the date can be read back out of it |
| Auth.CacheGuard | auth/auth.go:69-71 | with caching on, a non-empty token and an expiry after now, the cached token is returned, nothing is sent and the tokens stay |
| Auth.InputCheck | auth/auth.go:73-75 | past the cache guard, a failing email or an empty password gives "invalid email or password", sends nothing and keeps the tokens |
| Auth.NetworkOnlyPastGuards | auth/auth.go:68-82 | a call sends a request if and only if the cache guard does not fire and the input passes the check |
| Auth.StoredExpiry | auth/auth.go:461-462 | the stored expiry is 300 s before the provider's; the stored token is served from cache at a later time if and only if it is non-empty and that time is before the stored expiry |
| Auth.TokensOnlyFromGrant | auth/auth.go:459-464 | the tokens either stay, or the call returned the new access token and its last request was a token request or the gateway login |
| Auth.CacheRoundTrip | auth/auth.go:69-71 | after a call that stored a non-empty token, any later call before its expiry with caching on returns that token, sends nothing and keeps the tokens |
| Auth.CodeModeKeepsTokens | auth/auth.go:416-419 | a local login in auth-for-code mode never changes the tokens and sends no token request; a success after requests is `verifier\|` plus a non-empty code |
| Auth.LocalLogin | auth/auth.go:137-395 | a local login sends its requests in chain order, each token request with the run's verifier, no MFA POST without a code, and at most one request more than there are replies |
| Auth.GatewayLogin | auth/auth.go:471-515 | the gateway login sends exactly one POST of email, password and MFA code to `<prefix>/auth/login`; a 200 with a decodable body stores that body's tokens, even in auth-for-code mode |
| Email.CheckEmail | auth/auth.go:63-66 | the unanchored search of the email regular expression; stated by AddressAccepted, EmbeddedAccepted, NoAtRejected, ShortTldRejected, PlainAddressAccepted and PipeInTldAccepted |
| Email.AddressAccepted | auth/auth.go:63-66 | local part starting with a word character, `@`, domain, `.`, and a 2–7 letter top-level part is accepted |
| Email.EmbeddedAccepted | auth/auth.go:63-66 | the search is unanchored: text around an accepted string that does not touch it with a word character keeps it accepted |
| Email.NoAtRejected | auth/auth.go:63-66 | a string without `@` is rejected |
| Email.ShortTldRejected | auth/auth.go:63-66 | `a@b.c` is rejected (top-level part shorter than two) |
| Email.PlainAddressAccepted | auth/auth.go:63-66 | `xxx@example.com` is accepted |
| Email.PipeInTldAccepted | auth/auth.go:64 | `a@b.c\|d` is accepted, because the class `[A-Z\|a-z]` contains `\|` |
| AuthorizeUrl.ReplaceChallenge | auth/auth.go:177-179 | `ReplaceAllString` of `code_challenge=[^&]+` as a left-to-right scan; stated by ValueLength and TemplateScan |
| AuthorizeUrl.BuildAuthorizeUrl | auth/auth.go:168-181 | the authorize URL of partTwo from the challenge and the preauth cookie; stated by BuildShape, BuildCarries, BuildSampleIsTemplate and BuildAccepted |
| AuthorizeUrl.ValueLength | auth/auth.go:177 | the length `[^&]+` reaches: no `&` before it, and it stops at the end or at an `&` |
| AuthorizeUrl.TemplateScan | auth/auth.go:173-180 | the challenge replacement changes only the template's `code_challenge` value: every other parameter before and after stays as written |
| AuthorizeUrl.BuildShape | auth/auth.go:173-181 | the built URL is the fixed prefix (client_id, audience, redirect_uri, scope, response_type), `code_challenge=` and the challenge (placeholder occurrences inside it replaced), the fixed `code_challenge_method`/`prompt` part, then the preauth cookie |
| AuthorizeUrl.BuildCarries | auth/auth.go:173-181 | a challenge that does not contain the placeholder is carried into the URL verbatim |
| AuthorizeUrl.BuildAccepted | auth/auth.go:173-193 | with a challenge and a preauth cookie free of control characters and `#`, `http.NewRequest` accepts the built authorize URL, so partThree does not fail with "error creating request" |
| AuthorizeUrl.BuildSampleIsTemplate | auth/auth.go:171-181 | building with the template's own sample challenge and the placeholder as cookie gives back the template |
| RequestUrl.NewRequestFault | auth/auth.go:190-193 | the error `http.NewRequest` returns for a URL (the same check at auth/auth.go:239, 277 and 311), or none; stated by PlainAccepted, ControlRejected, FragmentAccepted and EscapeRejected |
| RequestUrl.PlainAccepted | auth/auth.go:190-193 | a URL with no control character and no `#` is accepted by `http.NewRequest` |
| RequestUrl.ControlRejected | auth/auth.go:190-193 | a URL with a control character and no `#` before it is refused by `http.NewRequest` |
| RequestUrl.FragmentAccepted | auth/auth.go:190-193 | a URL plain before its first `#` and with no `%` after it is accepted |
| RequestUrl.EscapeRejected | auth/auth.go:190-193 | a URL plain before its first `#` whose fragment opens with `%` and a non-hex character is refused with "invalid URL escape" and those three characters |
| Protocol.Message | auth/auth.go:74-515 | the text of each error value as the source's `errors.New`/`fmt.Errorf` sites write it, a `%v` of a Go error being its text and the login page's non-200 branch printing a nil error as `<nil>`; the step lemmas state which error value each branch returns |
| Protocol.TransportPrefix | auth/auth.go:149 | the per-step prefix of the error returned when `session.Do` fails (also auth/auth.go:200, 251, 288, 321, 381, 445 and 493), used by Message |
| Protocol.Lookup | auth/auth.go:211 | `url.Values.Get`: the value of a key, or "" when it is absent (also auth/auth.go:360, 407 and 412); used by LoginPageStep, MfaStep and CallbackStep |
| Text.StartsWith | auth/auth.go:294 | `strings.HasPrefix` (also auth/auth.go:327, 333 and 387); used by PasswordStep, ResumeStep and MfaStep |
| Text.ReplaceAll | auth/auth.go:181 | `strings.ReplaceAll`, left to right without overlap; stated by ReplaceAllAbsent and ReplaceAllConcat |
| Text.ReplaceAllAbsent | auth/auth.go:181 | `strings.ReplaceAll` leaves a string without the pattern unchanged |
| Text.ReplaceAllConcat | auth/auth.go:181 | replacing in a concatenation where no match straddles the seam replaces in each part |
| Flow.PartOne | auth/auth.go:137-166 | the preauth GET and its reply; stated by PreauthStep, PreauthRequests and LoginChain |
| Flow.PartTwo | auth/auth.go:168-183 | no request: partThree on the URL built from the run's challenge and the cookie; stated through PreauthStep and BuildShape |
| Flow.PartThree | auth/auth.go:185-220 | the login-page GET; stated by LoginPageStep, LoginPageRequests and LoginChain |
| Flow.PartFour | auth/auth.go:222-260 | the identifier POST; stated by IdentifierStep, IdentifierRequests, ControlStateRefused and LoginChain |
| Flow.PartFive | auth/auth.go:262-303 | the password POST; stated by PasswordStep, PasswordRequests and LoginChain |
| Flow.PartSix | auth/auth.go:305-339 | the resume GET and its branches; stated by ResumeStep and ResumeLoop |
| Flow.PartSeven | auth/auth.go:341-397 | the MFA checks and POST; stated by MfaStep and MfaLoop |
| Flow.GetAccessToken | auth/auth.go:399-468 | the callback checks and the token request; stated by CallbackStep and CallbackRun |
| Flow.TokenReply | auth/auth.go:449-467 | the token reply shared with the gateway login (auth/auth.go:497-515); stated by TokenReplyGrants |
| Flow.GetAccessTokenProxy | auth/auth.go:471-516 | the one gateway login POST; stated by Auth.GatewayLogin |
| LoginProperties.Steps | auth/auth.go:137-395 | a helper, not a source function: the step tags of the model's request trace, position by position |
| LoginProperties.PreauthStep | auth/auth.go:137-166 | partOne sends the preauth GET; only a 200 with a decodable body and a non-empty cookie goes on, to the login page with the URL built from that cookie; otherwise it stops with exactly "error fetch preauth code in" (transport), "error request preauth code" (other status), the decoder's error, or "get preauth cookie failed" |
| LoginProperties.LoginPageStep | auth/auth.go:185-220 | a URL `http.NewRequest` refuses ends the run with "error creating request" and nothing sent; otherwise partThree GETs it following redirects, and only a 200 with a parsable final query and non-empty `state` goes on, with that state; otherwise it stops with exactly "error requesting login url" (transport or other status), the query parser's error, or "state parameter not found" |
| LoginProperties.IdentifierStep | auth/auth.go:222-260 | a refused identifier URL ends the run with "error creating request" and nothing sent; otherwise partFour POSTs the email with the state; a 302 goes on, a transport error stops with "error checking email: <reason>" and any other reply with "error checking email" |
| LoginProperties.PasswordStep | auth/auth.go:262-303 | a refused password URL ends the run with "error creating request" and nothing sent; otherwise a transport error stops with its reason, a 302 to `/authorize/resume?` goes to partSix with exactly that location, another 302 stops with "login callback failed", a 400 with "wrong email or password", anything else with "error logging in" |
| LoginProperties.ResumeStep | auth/auth.go:305-339 | a refused resume URL ends the run with "error creating request"; otherwise after the GET: 302 to the MFA challenge gives "mfa string not found" without a code, else partSeven; 302 to the app callback goes to the token exchange with that location; other 302 "login callback failed"; non-302 "error logging in" |
| LoginProperties.MfaStep | auth/auth.go:341-396 | before any request, an unparsable challenge URL fails with "error parsing url", an unparsable query with "error parsing url query", an empty `state` with "state parameter not found"; otherwise the code is POSTed; 302 to resume returns to partSix; other 302 "login with mfa callback failed"; 400 "wrong mfa code for login"; else "login failed with wrong email or password" |
| LoginProperties.CallbackStep | auth/auth.go:399-432 | an unparsable callback URL fails with "error parsing callback url" and sends nothing; then a non-empty `error` wins with "<error>: <error_description>"; then an empty `code` is an error; auth-for-code mode returns `verifier\|code` with no request; otherwise one token request with code and verifier |
| LoginProperties.TokenReplyGrants | auth/auth.go:449-467 | a token reply grants if and only if it is a 200 whose body decodes, and grants exactly that body; a non-200 fails with the status line |
| LoginProperties.ResumeLoop | auth/auth.go:305-396 | a run from partSix follows the resume/MFA order, carries the verifier, needs an MFA code for MFA POSTs, grants only as allowed, and sends at most one request more than there are replies |
| LoginProperties.MfaLoop | auth/auth.go:341-396 | a run from partSeven is empty or the MFA POST followed by a resume-loop run, with the same guarantees |
| LoginProperties.CallbackRun | auth/auth.go:399-467 | a run from getAccessToken sends at most the token request, only outside auth-for-code mode, with the verifier |
| LoginProperties.LoginChain | auth/auth.go:137-467 | a whole local login keeps the chain order, carries the verifier, sends no MFA POST without a code, grants a code pair only in auth-for-code mode and tokens only after a last token request, and ends |
| LoginProperties.PreauthRequests | auth/auth.go:137-166 | the first request of a login is the preauth GET to the gateway; a run past it had a 200 with a non-empty cookie and goes on exactly as partThree with the authorize URL built from the challenge and that cookie, on the remaining replies |
| LoginProperties.LoginPageRequests | auth/auth.go:185-220 | partThree sends a request if and only if `http.NewRequest` accepts the URL, and then first GETs it following redirects; a run past it had a 200 with a non-empty `state` in the final URL and goes on exactly as partFour with that state on the remaining replies |
| LoginProperties.IdentifierRequests | auth/auth.go:222-260 | partFour sends a request if and only if `http.NewRequest` accepts its URL, and then first POSTs the identifier form to `/u/login/identifier?state=<state>`; a run past it had a 302 and goes on exactly as partFive with the same state on the remaining replies |
| LoginProperties.PasswordRequests | auth/auth.go:262-303 | the password POST is sent if and only if `http.NewRequest` accepts its URL; it carries state, email and password; a run past it is the 302 to `/authorize/resume?` followed by partSix at that location on the remaining replies |
| Scenarios.ControlStateRefused | auth/auth.go:222-242 | a login-page `state` with a control character before any `#` (as `state=a%0Ab` decodes to) makes partFour fail with "error creating request" before sending anything |
| Scenarios.HappyRun | auth/auth.go:137-467 | on a provider that lets the login through (challenge, cookie and state free of control characters and `#`), a local login ends with the token body (or `verifier\|code` in auth-for-code mode) after the front steps, the resume GET and, outside that mode, one token request |
| Scenarios.GrantedLogin | auth/auth.go:68-82 | past both guards, on a provider that lets the login through, `Auth` returns the token body's access token, stores that body's tokens, and sends the four front requests, the resume GET and one token request |
| Scenarios.CodePairLogin | auth/auth.go:117-128 | the same provider in auth-for-code mode returns `<verifier>\|<code>`, keeps the tokens, and sends no token request |
| Scenarios.HappyLogin | auth/auth.go:68-82 | with the token response `tok`/`ref`/3600 the call returns `tok`, stores `tok`/`ref` with expiry grant time + 3300 s, after six requests |
| Scenarios.WrongPasswordLogin | auth/auth.go:298-299 | any 400 reply at the password page fails with the wrong-email-or-password error after the four front requests, keeps the tokens and sends nothing more |
| Scenarios.MfaMissingLogin | auth/auth.go:327-330 | a 302 to the MFA challenge when no MFA code is configured fails with the missing-MFA error after the resume GET, keeps the tokens and sends no MFA POST |
| Scenarios.CachedSecondCall | auth/auth.go:69-71 | a fresh object logs in on the happy path, and a second `Auth` before expiry returns the same token with no request |

## Left out

- HTTP transport, TLS settings, the process-wide cookie jar, request headers and the `CheckRedirect` toggling are not modelled. Each request records only whether redirects are followed; the reply is given already decoded.
- `http.NewRequest` errors are modelled where the URL holds text from the provider: partThree (the preauth cookie), partFour and partFive (the login page's `state`) and partSix (the `Location`). The preauth, token and gateway URLs are fixed text, and partSeven's URL has already passed `url.Parse` on the same string, so the model lets those through.
- RequestUrl.NewRequestFault: Go quotes the URL and the escape text with `%q`; the model puts them between plain double quotes, and takes the escape text as up to three characters rather than three bytes.
- JSON decoding and `url.Parse`/`url.ParseQuery` are not modelled. Their results (decoded fields, or an error text) are part of each reply. For partSeven, the `ParsedUrl` carried with the `Location` stands for the parse of `https://auth0.openai.com` + location, which is what the source parses.
- PKCE generation (`utils.GenerateCodeVerifier`/`GenerateCodeChallenge`) is not part of this model. The pair is an input, drawn once per run and used both for the challenge and for the verifier.
- DefaultApiPrefix: the date (`time.Now()` minus a day, formatted `YYYYMMDD`) is an input string. The clock and the formatting are not modelled.
- Auth.Auth0.Auth: the cache guard and the token storage read the clock separately (`World.now` and `World.grantedAt`). Nanosecond precision of `time.Time` is reduced to seconds.
- Auth.StoredExpiry: `time.Duration` is an int64 of nanoseconds, so an `expires_in` above about 292 years would overflow. The model uses unbounded integers.
- AuthorizeUrl.BuildShape: `ReplaceAllString` expands `$` in the replacement. The model treats the replacement literally, which matches for base64url challenges (no `$`).
- The `sessionToken` and `reqHeaders` fields are never read. `session` (the HTTP client) and `userAgent` (a header value) only feed the transport and the headers, which are not modelled.
- fakeopen/fakeopen.go, opaitokens_test.go and src/main.go (the token-pool client and example harnesses) are not part of this model.
- The gateway login of getAccessTokenProxy is flagged in the source as not working. It is modelled as one reply-driven request; only its token-storing tail is faithful to a working service.
