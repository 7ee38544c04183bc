/**
 * The login chain of auth/auth.go as a transition system over the replies the
 * provider gives: partOne .. partSeven, getAccessToken, and the gateway login of
 * getAccessTokenProxy.
 *
 * Each step sends at most one request and reads the next reply. The supplied
 * replies are a finite sequence; a request sent after the last of them fails as
 * if the connection were closed. Every step returns the requests it and the later
 * steps sent, and how the run ended.
 */
module Flow {
  import opened Wrappers
  import opened Text
  import opened Protocol
  import opened AuthorizeUrl
  import opened RequestUrl

  /** The PKCE pair that partTwo draws once per run: a verifier and its challenge. */
  datatype Pkce = Pkce(verifier: string, challenge: string)

  /**
   * What a run reads besides the replies: the `Auth0` fields `email`, `password`,
   * `mfa` and `authForCode`, the gateway prefix of `DefaultApiPrefix`, and the PKCE pair.
   */
  datatype Env = Env(email: string, password: string, mfa: string, authForCode: bool, apiPrefix: string, pkce: Pkce)

  /** A successful end: the `verifier|code` pair of auth-for-code mode, or a decoded token response. */
  datatype Grant = CodePair(pair: string) | Granted(body: Body)

  /** The requests a run sent, in order, and how it ended. */
  datatype Run = Run(sent: seq<Request>, outcome: Result<Grant, AuthError>)

  /** The transport error of a request sent after the supplied replies are exhausted. */
  const ConnectionClosed := "connection closed"

  /** The reply to the next request. */
  function Answer(replies: seq<Exchange>): Exchange
  {
    if replies == [] then TransportError(ConnectionClosed) else replies[0]
  }

  /** The replies left for the steps after the next one. */
  function Later(replies: seq<Exchange>): seq<Exchange>
  {
    if replies == [] then [] else replies[1..]
  }

  /** `q` was sent and the run went on as `rest`. */
  function Then(q: Request, rest: Run): Run
  {
    Run([q] + rest.sent, rest.outcome)
  }

  /** `q` was sent and the run ended in error `e`. */
  function Stop(q: Request, e: AuthError): Run
  {
    Run([q], Failure(e))
  }

  /** The run ended in error `e` before sending anything more. */
  function Abort(e: AuthError): Run
  {
    Run([], Failure(e))
  }

  /** partOne: GET the gateway's preauth endpoint without following redirects; a 200 must carry a non-empty `preauth_cookie`. */
  function PartOne(env: Env, replies: seq<Exchange>): Run
  {
    var q := Request(Preauth, GET, env.apiPrefix + "/auth/preauth", map[], false);
    match Answer(replies)
    case TransportError(why) => Stop(q, RequestFailed(Preauth, why))
    case Reply(r) =>
      if r.status != StatusOK then Stop(q, PreauthRejected)
      else
        match r.body
        case Failure(why) => Stop(q, DecodeFailed(why))
        case Success(b) =>
          if b.preauthCookie == "" then Stop(q, PreauthCookieMissing)
          else Then(q, PartTwo(env, b.preauthCookie, Later(replies)))
  }

  /** partTwo: no request; builds the authorize URL from the challenge and the preauth cookie. */
  function PartTwo(env: Env, preauthCookie: string, replies: seq<Exchange>): Run
  {
    PartThree(env, BuildAuthorizeUrl(env.pkce.challenge, preauthCookie), replies)
  }

  /**
   * partThree: GET the authorize URL following redirects; a 200 must leave a non-empty
   * `state` in the final URL's query. A URL `http.NewRequest` rejects ends the run
   * before anything is sent, as it does in partFour, partFive and partSix.
   */
  function PartThree(env: Env, authorizeUrl: string, replies: seq<Exchange>): Run
  {
    var q := Request(LoginPage, GET, authorizeUrl, map[], true);
    var fault := NewRequestFault(authorizeUrl);
    if fault.Some? then Abort(RequestBuildFailed(fault.value))
    else
    match Answer(replies)
    case TransportError(why) => Stop(q, RequestFailed(LoginPage, why))
    case Reply(r) =>
      if r.status != StatusOK then Stop(q, LoginPageRejected)
      else if r.finalQuery.err.Some? then Stop(q, QueryParseFailed(r.finalQuery.err.value))
      else
        var state := Lookup(r.finalQuery.params, "state");
        if state == "" then Stop(q, StateNotFound)
        else Then(q, PartFour(env, state, Later(replies)))
  }

  /** The form partFour posts to the identifier page. */
  function IdentifierForm(env: Env, state: string): map<string, string>
  {
    map["state" := state, "username" := env.email, "js-available" := "true",
        "webauthn-available" := "true", "is-brave" := "false",
        "webauthn-platform-available" := "false", "action" := "default"]
  }

  /** The identifier page of `state`: the state goes into the query as it is, unescaped. */
  function IdentifierUrl(state: string): string
  {
    AuthHost + "/u/login/identifier?state=" + state
  }

  /** The password page of `state`, built the same way. */
  function PasswordUrl(state: string): string
  {
    AuthHost + "/u/login/password?state=" + state
  }

  /** partFour: POST the email to the identifier page; only a 302 goes on. */
  function PartFour(env: Env, state: string, replies: seq<Exchange>): Run
  {
    var q := Request(Identifier, POST, IdentifierUrl(state), IdentifierForm(env, state), false);
    var fault := NewRequestFault(IdentifierUrl(state));
    if fault.Some? then Abort(RequestBuildFailed(fault.value))
    else
    match Answer(replies)
    case TransportError(why) => Stop(q, RequestFailed(Identifier, why))
    case Reply(r) =>
      if r.status == StatusFound then Then(q, PartFive(env, state, Later(replies)))
      else Stop(q, EmailRejected)
  }

  /** partFive: POST email and password; a 302 to `/authorize/resume?` goes on to the resume step. */
  function PartFive(env: Env, state: string, replies: seq<Exchange>): Run
  {
    var form := map["state" := state, "username" := env.email, "password" := env.password, "action" := "default"];
    var q := Request(Password, POST, PasswordUrl(state), form, false);
    var fault := NewRequestFault(PasswordUrl(state));
    if fault.Some? then Abort(RequestBuildFailed(fault.value))
    else
    match Answer(replies)
    case TransportError(why) => Stop(q, RequestFailed(Password, why))
    case Reply(r) =>
      if r.status == StatusFound then
        if StartsWith(r.location, ResumePrefix) then Then(q, PartSix(env, r.location, Later(replies)))
        else Stop(q, LoginCallbackFailed)
      else if r.status == StatusBadRequest then Stop(q, WrongEmailOrPassword)
      else Stop(q, LoginError)
  }

  /**
   * partSix: GET the resume location. A 302 to the MFA challenge goes to partSeven
   * when an MFA code is configured; a 302 to the app callback goes to the token exchange.
   */
  function PartSix(env: Env, location: string, replies: seq<Exchange>): Run
    decreases |replies|
  {
    var q := Request(Resume, GET, AuthHost + location, map[], false);
    var fault := NewRequestFault(AuthHost + location);
    if fault.Some? then Abort(RequestBuildFailed(fault.value))
    else
    match Answer(replies)
    case TransportError(why) => Stop(q, RequestFailed(Resume, why))
    case Reply(r) =>
      if r.status == StatusFound then
        if StartsWith(r.location, MfaChallengePrefix) then
          if env.mfa == "" then Stop(q, MfaMissing)
          else Then(q, PartSeven(env, r.location, r.locationUrl, Later(replies)))
        else if !StartsWith(r.location, CallbackPrefix) then Stop(q, LoginCallbackFailed)
        else Then(q, GetAccessToken(env, r.location, r.locationUrl, Later(replies)))
      else Stop(q, LoginError)
  }

  /**
   * partSeven: read `state` from the challenge URL, then POST the MFA code to it;
   * a 302 to `/authorize/resume?` goes back to partSix.
   */
  function PartSeven(env: Env, location: string, challengeUrl: ParsedUrl, replies: seq<Exchange>): Run
    decreases |replies|
  {
    match challengeUrl
    case Unparsable(why) => Abort(UrlParseFailed(why))
    case Parsed(pq) =>
      if pq.err.Some? then Abort(QueryParseFailed(pq.err.value))
      else
        var state := Lookup(pq.params, "state");
        if state == "" then Abort(StateNotFound)
        else
          var form := map["state" := state, "code" := env.mfa, "action" := "default"];
          var q := Request(MfaCode, POST, AuthHost + location, form, false);
          match Answer(replies)
          case TransportError(why) => Stop(q, RequestFailed(MfaCode, why))
          case Reply(r) =>
            if r.status == StatusFound then
              if StartsWith(r.location, ResumePrefix) then Then(q, PartSix(env, r.location, Later(replies)))
              else Stop(q, MfaCallbackFailed)
            else if r.status == StatusBadRequest then Stop(q, WrongMfaCode)
            else Stop(q, MfaLoginFailed)
  }

  /** The form of the authorization-code exchange. */
  function TokenForm(env: Env, code: string): map<string, string>
  {
    map["redirect_uri" := RedirectUri, "grant_type" := "authorization_code", "client_id" := ClientId,
        "code" := code, "code_verifier" := env.pkce.verifier]
  }

  /**
   * getAccessToken: interpret the callback URL's query. A provider `error` comes
   * first, then a missing `code`; auth-for-code mode ends with `verifier|code`;
   * otherwise the code is exchanged for tokens.
   */
  function GetAccessToken(env: Env, callbackUrl: string, parsed: ParsedUrl, replies: seq<Exchange>): Run
  {
    match parsed
    case Unparsable(why) => Abort(CallbackParseFailed(why))
    case Parsed(pq) =>
      var params := pq.params;
      var error := Lookup(params, "error");
      if error != "" then Abort(ProviderError(error, Lookup(params, "error_description")))
      else
        var code := Lookup(params, "code");
        if code == "" then Abort(CodeMissing(callbackUrl))
        else if env.authForCode then Run([], Success(CodePair(env.pkce.verifier + "|" + code)))
        else
          var q := Request(TokenExchange, POST, TokenUrl, TokenForm(env, code), false);
          TokenReply(q, TokenExchange, Answer(replies))
  }

  /** The tail shared by getAccessToken and getAccessTokenProxy: a 200 with a decodable body grants tokens. */
  function TokenReply(q: Request, step: Step, reply: Exchange): Run
  {
    match reply
    case TransportError(why) => Stop(q, RequestFailed(step, why))
    case Reply(r) =>
      if r.status == StatusOK then
        match r.body
        case Failure(why) => Stop(q, DecodeFailed(why))
        case Success(b) => Run([q], Success(Granted(b)))
      else Stop(q, TokenRejected(r.statusLine))
  }

  /** getAccessTokenProxy: one POST of the credentials to the gateway's login endpoint. */
  function GetAccessTokenProxy(env: Env, replies: seq<Exchange>): Run
  {
    var form := map["username" := env.email, "password" := env.password, "mfa_code" := env.mfa];
    var q := Request(ProxyLogin, POST, env.apiPrefix + "/auth/login", form, false);
    TokenReply(q, ProxyLogin, Answer(replies))
  }
}
