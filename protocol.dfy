/**
 * The vocabulary of one login run of auth/auth.go: what each HTTP exchange
 * returns (as far as the login chain looks at it), what each request carries,
 * and the fixed error values the chain can end in.
 *
 * Transport, TLS, cookies and JSON or query decoding are not modelled: a reply
 * arrives already decoded, with the fields the chain reads.
 */
module Protocol {
  import opened Wrappers

  /** The three status codes the chain distinguishes (`http.StatusOK`, `StatusFound`, `StatusBadRequest`). */
  const StatusOK := 200
  const StatusFound := 302
  const StatusBadRequest := 400

  /** The identity provider's origin; resume, MFA and login pages are this plus a path. */
  const AuthHost := "https://auth0.openai.com"
  /** `Location` prefixes the chain tests for. */
  const ResumePrefix := "/authorize/resume?"
  const MfaChallengePrefix := "/u/mfa-otp-challenge?"
  const CallbackPrefix := RedirectUri + "?"
  /** Fixed values of the token request. */
  const TokenUrl := "https://auth0.openai.com/oauth/token"
  const RedirectUri := "com.openai.chat://" + "auth0.openai.com/ios/" + "com.openai.chat/callback"
  const ClientId := "pdlLIX2Y72MIl2rh" + "LhTE9VV9bN905kBh"

  /** Decoded query parameters; a repeated key keeps its first value, as `url.Values.Get` reads it. */
  type Query = map<string, string>

  /** `url.Values.Get`: the value of `key`, or "" when the key is absent. */
  function Lookup(q: Query, key: string): string
  {
    if key in q then q[key] else ""
  }

  /** What `url.ParseQuery` returns for a raw query: the pairs it read, and the error it reported, if any. */
  datatype ParsedQuery = ParsedQuery(params: Query, err: Option<string>)

  /** What `url.Parse` makes of a URL: a rejection with its reason, or a URL whose raw query parses as given. */
  datatype ParsedUrl = Unparsable(reason: string) | Parsed(query: ParsedQuery)

  /**
   * A JSON body decoded into the struct the step declares: the preauth step reads
   * `preauth_cookie`, the token steps read `access_token`, `refresh_token` and
   * `expires_in` (seconds).
   */
  datatype Body = Body(preauthCookie: string, accessToken: string, refreshToken: string, expiresIn: int)

  /**
   * One HTTP response, reduced to what the chain reads: the status code and status
   * line, the `Location` header ("" when absent) and how `net/url` parses it, the
   * query of the final request URL after any redirects were followed, and the JSON
   * body (or the decoder's error).
   */
  datatype Response = Response(
    status: int,
    statusLine: string,
    location: string,
    // How the client parses the `Location`: partSix hands it on to partSeven, which
    // parses the provider's host followed by the location, and to getAccessToken,
    // which parses the location itself (the app's callback URL).
    locationUrl: ParsedUrl,
    finalQuery: ParsedQuery,
    body: Result<Body, string>)

  /** The outcome of `session.Do`: a response, or a transport error with its text. */
  datatype Exchange = Reply(response: Response) | TransportError(reason: string)

  /** The steps of the chain, in the order they run: partOne, partThree .. partSeven, getAccessToken, and the gateway login of getAccessTokenProxy. */
  datatype Step = Preauth | LoginPage | Identifier | Password | Resume | MfaCode | TokenExchange | ProxyLogin

  datatype Method = GET | POST

  /**
   * One request as it leaves the client: which step sent it, the HTTP method, the URL,
   * the form fields of a POST, and whether redirects are followed
   * (`CheckRedirect` returning nil) or captured (`http.ErrUseLastResponse`).
   */
  datatype Request = Request(step: Step, verb: Method, url: string, form: map<string, string>, followRedirects: bool)

  /** Every way `Auth` and `AuthForCodeUrl` can fail; `Message` gives the text of the Go error. */
  datatype AuthError =
    | InvalidEmailOrPassword
    | RequestBuildFailed(reason: string)
    | RequestFailed(step: Step, reason: string)
    | DecodeFailed(reason: string)
    | PreauthCookieMissing
    | PreauthRejected
    | QueryParseFailed(reason: string)
    | StateNotFound
    | LoginPageRejected
    | EmailRejected
    | LoginCallbackFailed
    | WrongEmailOrPassword
    | LoginError
    | MfaMissing
    | UrlParseFailed(reason: string)
    | MfaCallbackFailed
    | WrongMfaCode
    | MfaLoginFailed
    | CallbackParseFailed(reason: string)
    | ProviderError(code: string, description: string)
    | CodeMissing(callbackUrl: string)
    | TokenRejected(statusLine: string)

  /** The prefix of the error a step returns when `session.Do` fails. */
  function TransportPrefix(step: Step): string
  {
    match step
    case Preauth => "error fetch preauth code in"
    case LoginPage => "error requesting login url"
    case Identifier => "error checking email"
    case Password | Resume | MfaCode => "error logging in"
    case TokenExchange | ProxyLogin => "error getting access token"
  }

  /**
   * The text of the error value. A `%v` of a Go error is its text, given here as the
   * `reason`; the login page's non-200 branch formats a nil error, which Go prints as `<nil>`.
   */
  function Message(e: AuthError): string
  {
    match e
    case InvalidEmailOrPassword => "invalid email or password"
    case RequestBuildFailed(reason) => "error creating request: " + reason
    case RequestFailed(step, reason) => TransportPrefix(step) + ": " + reason
    case DecodeFailed(reason) => "error decoding response: " + reason
    case PreauthCookieMissing => "get preauth cookie failed"
    case PreauthRejected => "error request preauth code"
    case QueryParseFailed(reason) => "error parsing url query: " + reason
    case StateNotFound => "state parameter not found"
    case LoginPageRejected => "error requesting login url: <nil>"
    case EmailRejected => "error checking email"
    case LoginCallbackFailed => "login callback failed"
    case WrongEmailOrPassword => "wrong email or password"
    case LoginError => "error logging in"
    case MfaMissing => "mfa string not found"
    case UrlParseFailed(reason) => "error parsing url: " + reason
    case MfaCallbackFailed => "login with mfa callback failed"
    case WrongMfaCode => "wrong mfa code for login"
    case MfaLoginFailed => "login failed with wrong email or password"
    case CallbackParseFailed(reason) => "error parsing callback url: " + reason
    case ProviderError(code, description) => code + ": " + description
    case CodeMissing(callbackUrl) => "error getting code from callback url: " + callbackUrl
    case TokenRejected(statusLine) => "error getting access token: " + statusLine
  }
}
