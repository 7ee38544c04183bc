/**
 * Whole calls of `Auth` and `AuthForCodeUrl` against a provider that answers
 * with a fixed script of replies: the happy path, auth-for-code mode, a wrong
 * password, and an MFA challenge without an MFA code.
 */
module Scenarios {
  import opened Wrappers
  import opened Text
  import opened RequestUrl
  import opened Protocol
  import opened AuthorizeUrl
  import opened Flow
  import opened LoginProperties
  import opened Auth

  /** A query with no parameters and no parse error. */
  const NoQuery := ParsedQuery(map[], None)

  /** A 200 with the given JSON body and final-URL query. */
  function Ok(body: Result<Body, string>, finalQuery: ParsedQuery): Exchange
  {
    Reply(Response(StatusOK, "200 OK", "", Unparsable("empty url"), finalQuery, body))
  }

  /** A 302 to `location`, which parses as `locationUrl`. */
  function Redirect(location: string, locationUrl: ParsedUrl): Exchange
  {
    Reply(Response(StatusFound, "302 Found", location, locationUrl, NoQuery, Failure("not JSON")))
  }

  /** The login page's reply, a 200 whose final URL carries `state`. */
  function LoginPageReply(state: string): Exchange
  {
    Ok(Failure("not JSON"), ParsedQuery(map["state" := state], None))
  }

  /** The replies up to the identifier page: the preauth cookie, the login page with `state`, and the identifier page's 302. */
  function FrontReplies(cookie: string, state: string): seq<Exchange>
  {
    [Ok(Success(Body(cookie, "", "", 0)), NoQuery),
     LoginPageReply(state),
     Redirect("/u/login/password?state=" + state, Unparsable("relative"))]
  }

  /** The password page's 302 to the resume step. */
  function ToResume(state: string): Exchange
  {
    Redirect(ResumePrefix + "state=" + state, Unparsable("relative"))
  }

  /** The resume step's 302 to the app callback with `code`. */
  function ToCallback(code: string): Exchange
  {
    Redirect(CallbackPrefix + "code=" + code, Parsed(ParsedQuery(map["code" := code], None)))
  }

  /** A provider that lets the login through and answers the token request with `b`. */
  function HappyReplies(cookie: string, state: string, code: string, b: Body): seq<Exchange>
  {
    FrontReplies(cookie, state) + [ToResume(state), ToCallback(code), Ok(Success(b), NoQuery)]
  }

  lemma PrefixOf(p: string, s: string)
    ensures StartsWith(p + s, p)
  {
    assert (p + s)[..|p|] == p;
  }

  /** The app callback and the MFA challenge differ in their first character. */
  lemma PrefixHeads()
    ensures CallbackPrefix[0] == 'c' && MfaChallengePrefix[0] == '/'
  {
  }

  lemma NotPrefixByFirst(s: string, p: string)
    requires s != [] && p != [] && s[0] != p[0]
    ensures !StartsWith(s, p)
  {
    if |p| <= |s| {
      assert s[..|p|][0] != p[0];
    }
  }

  lemma PagePiecesPlain()
    ensures Plain("/u/login/identifier?state=") && Plain("/u/login/password?state=")
  {}

  lemma ResumePiecesPlain()
    ensures Plain(ResumePrefix) && Plain("state=")
  {}

  /** With a plain `state`, the identifier, password and resume URLs are accepted by `http.NewRequest`. */
  lemma StatePagesAccepted(state: string)
    requires Plain(state)
    ensures NewRequestFault(IdentifierUrl(state)) == None && NewRequestFault(PasswordUrl(state)) == None
    ensures NewRequestFault(AuthHost + (ResumePrefix + "state=" + state)) == None
  {
    HostPathPlain(); PagePiecesPlain(); ResumePiecesPlain();
    PlainConcat(AuthHost, "/u/login/identifier?state=");
    PlainConcat(AuthHost + "/u/login/identifier?state=", state);
    PlainAccepted(IdentifierUrl(state));
    PlainConcat(AuthHost, "/u/login/password?state=");
    PlainConcat(AuthHost + "/u/login/password?state=", state);
    PlainAccepted(PasswordUrl(state));
    PlainConcat(ResumePrefix, "state=");
    PlainConcat(ResumePrefix + "state=", state);
    PlainConcat(AuthHost, ResumePrefix + "state=" + state);
    PlainAccepted(AuthHost + (ResumePrefix + "state=" + state));
  }

  /**
   * A login-page `state` holding a control character before any `#` (the query
   * `state=a%0Ab` decodes to one) makes `http.NewRequest` refuse the identifier
   * URL: partFour sends nothing and the login ends in its error.
   */
  lemma ControlStateRefused(env: Env, state: string, replies: seq<Exchange>, i: nat)
    requires i < |state| && IsControl(state[i])
    requires forall j | 0 <= j < i :: state[j] != '#'
    ensures PartFour(env, state, replies).sent == []
    ensures PartFour(env, state, replies).outcome.Failure?
    ensures PartFour(env, state, replies).outcome.error.RequestBuildFailed?
  {
    var page := AuthHost + "/u/login/identifier?state=";
    HostPathPlain(); PagePiecesPlain();
    PlainConcat(AuthHost, "/u/login/identifier?state=");
    assert IdentifierUrl(state) == page + state;
    forall j | 0 <= j < |page| + i ensures (page + state)[j] != '#' {
      if j >= |page| {
        assert (page + state)[j] == state[j - |page|];
      }
    }
    ControlRejected(page + state, |page| + i);
  }

  /** The requests after the resume GET on the happy path: the token request, unless in auth-for-code mode. */
  function TokenTail(env: Env): seq<Step>
  {
    if env.authForCode then [] else [TokenExchange]
  }

  /** How the happy path ends: the token body, or `verifier|code` in auth-for-code mode. */
  function HappyEnd(env: Env, code: string, b: Body): Result<Grant, AuthError>
  {
    if env.authForCode then Success(CodePair(env.pkce.verifier + "|" + code)) else Success(Granted(b))
  }

  lemma CallbackHappy(env: Env, code: string, b: Body)
    requires code != ""
    ensures var run := GetAccessToken(env, CallbackPrefix + "code=" + code, Parsed(ParsedQuery(map["code" := code], None)), [Ok(Success(b), NoQuery)]);
      Steps(run.sent) == TokenTail(env) && run.outcome == HappyEnd(env, code, b)
  {
  }

  lemma ResumeHappy(env: Env, state: string, code: string, b: Body)
    requires code != "" && Plain(state)
    ensures var run := PartSix(env, ResumePrefix + "state=" + state, [ToCallback(code), Ok(Success(b), NoQuery)]);
      Steps(run.sent) == [Resume] + TokenTail(env) && run.outcome == HappyEnd(env, code, b)
  {
    var callbackAt := CallbackPrefix + "code=" + code;
    PrefixOf(CallbackPrefix, "code=" + code);
    assert callbackAt == CallbackPrefix + ("code=" + code);
    PrefixHeads();
    assert callbackAt[0] == CallbackPrefix[0];
    NotPrefixByFirst(callbackAt, MfaChallengePrefix);
    StatePagesAccepted(state);
    var rest := [ToCallback(code), Ok(Success(b), NoQuery)];
    assert Later(rest) == [Ok(Success(b), NoQuery)];
    var tail := GetAccessToken(env, callbackAt, Parsed(ParsedQuery(map["code" := code], None)), Later(rest));
    CallbackHappy(env, code, b);
    var run := PartSix(env, ResumePrefix + "state=" + state, rest);
    assert run == Then(run.sent[0], tail);
    StepsThen(run.sent[0], tail);
  }

  lemma PasswordHappy(env: Env, state: string, code: string, b: Body)
    requires code != "" && Plain(state)
    ensures var run := PartFive(env, state, [ToResume(state), ToCallback(code), Ok(Success(b), NoQuery)]);
      Steps(run.sent) == [Password, Resume] + TokenTail(env) && run.outcome == HappyEnd(env, code, b)
  {
    var resumeAt := ResumePrefix + "state=" + state;
    PrefixOf(ResumePrefix, "state=" + state);
    assert resumeAt == ResumePrefix + ("state=" + state);
    StatePagesAccepted(state);
    var rest := [ToResume(state), ToCallback(code), Ok(Success(b), NoQuery)];
    assert Later(rest) == [ToCallback(code), Ok(Success(b), NoQuery)];
    var six := PartSix(env, resumeAt, Later(rest));
    ResumeHappy(env, state, code, b);
    var run := PartFive(env, state, rest);
    assert run == Then(run.sent[0], six);
    StepsThen(run.sent[0], six);
  }

  /** The replies from partOne on are the happy preauth reply and then `rest`. */
  lemma PreauthThrough(env: Env, cookie: string, rest: seq<Exchange>)
    requires cookie != ""
    ensures var run := PartOne(env, [Ok(Success(Body(cookie, "", "", 0)), NoQuery)] + rest);
      run.sent != [] && run == Then(run.sent[0], PartThree(env, BuildAuthorizeUrl(env.pkce.challenge, cookie), rest))
  {
    assert Later([Ok(Success(Body(cookie, "", "", 0)), NoQuery)] + rest) == rest;
  }

  lemma LoginPageThrough(env: Env, url: string, state: string, rest: seq<Exchange>)
    requires state != "" && NewRequestFault(url) == None
    ensures var run := PartThree(env, url, [LoginPageReply(state)] + rest);
      run.sent != [] && run == Then(run.sent[0], PartFour(env, state, rest))
  {
    assert Later([LoginPageReply(state)] + rest) == rest;
  }

  lemma IdentifierThrough(env: Env, state: string, rest: seq<Exchange>)
    requires NewRequestFault(IdentifierUrl(state)) == None
    ensures var run := PartFour(env, state, [Redirect("/u/login/password?state=" + state, Unparsable("relative"))] + rest);
      run.sent != [] && run == Then(run.sent[0], PartFive(env, state, rest))
  {
    assert Later([Redirect("/u/login/password?state=" + state, Unparsable("relative"))] + rest) == rest;
  }

  /** The login page GET and the identifier POST go through, and the run goes on as partFive on the replies after them. */
  lemma LoginPageOnward(env: Env, url: string, state: string, rest: seq<Exchange>)
    requires state != "" && NewRequestFault(url) == None && NewRequestFault(IdentifierUrl(state)) == None
    ensures var r2 := Redirect("/u/login/password?state=" + state, Unparsable("relative"));
      var run, five := PartThree(env, url, [LoginPageReply(state)] + ([r2] + rest)), PartFive(env, state, rest);
      Steps(run.sent) == [LoginPage, Identifier] + Steps(five.sent) && run.outcome == five.outcome
  {
    var r2 := Redirect("/u/login/password?state=" + state, Unparsable("relative"));
    var five := PartFive(env, state, rest);
    IdentifierThrough(env, state, rest);
    var four := PartFour(env, state, [r2] + rest);
    StepsThen(four.sent[0], five);
    LoginPageThrough(env, url, state, [r2] + rest);
    var three := PartThree(env, url, [LoginPageReply(state)] + ([r2] + rest));
    StepsThen(three.sent[0], four);
  }

  /** The preauth GET, the login page GET and the identifier POST go through, and the run goes on as partFive on the replies after them. */
  lemma FrontThrough(env: Env, cookie: string, state: string, rest: seq<Exchange>)
    requires cookie != "" && state != ""
    requires Plain(env.pkce.challenge) && Plain(cookie) && Plain(state)
    ensures var run, five := PartOne(env, FrontReplies(cookie, state) + rest), PartFive(env, state, rest);
      Steps(run.sent) == [Preauth, LoginPage, Identifier] + Steps(five.sent) && run.outcome == five.outcome
  {
    var r0, r1, r2 := Ok(Success(Body(cookie, "", "", 0)), NoQuery), LoginPageReply(state),
      Redirect("/u/login/password?state=" + state, Unparsable("relative"));
    assert FrontReplies(cookie, state) + rest == [r0] + ([r1] + ([r2] + rest));
    var url := BuildAuthorizeUrl(env.pkce.challenge, cookie);
    BuildAccepted(env.pkce.challenge, cookie);
    StatePagesAccepted(state);
    LoginPageOnward(env, url, state, rest);
    var three := PartThree(env, url, [r1] + ([r2] + rest));
    PreauthThrough(env, cookie, [r1] + ([r2] + rest));
    var run := PartOne(env, [r0] + ([r1] + ([r2] + rest)));
    StepsThen(run.sent[0], three);
    PreauthInFront(Steps(PartFive(env, state, rest).sent));
  }

  lemma PreauthInFront(t: seq<Step>)
    ensures [Preauth] + ([LoginPage, Identifier] + t) == [Preauth, LoginPage, Identifier] + t
  {
    assert [Preauth] + [LoginPage, Identifier] == [Preauth, LoginPage, Identifier];
  }

  /**
   * On the happy path a local login sends the four front requests and the resume
   * GET, then a token request unless it is in auth-for-code mode; it ends with the
   * token body, or with `verifier|code`.
   */
  lemma HappyRun(env: Env, cookie: string, state: string, code: string, b: Body)
    requires cookie != "" && state != "" && code != ""
    requires Plain(env.pkce.challenge) && Plain(cookie) && Plain(state)
    ensures var run := PartOne(env, HappyReplies(cookie, state, code, b));
      Steps(run.sent) == FrontSteps + [Resume] + TokenTail(env) && run.outcome == HappyEnd(env, code, b)
  {
    var rest := [ToResume(state), ToCallback(code), Ok(Success(b), NoQuery)];
    FrontThrough(env, cookie, state, rest);
    PasswordHappy(env, state, code, b);
    ResumeAfterFront(TokenTail(env));
  }

  lemma ResumeAfterFront(t: seq<Step>)
    ensures [Preauth, LoginPage, Identifier] + ([Password, Resume] + t) == FrontSteps + [Resume] + t
  {
    assert [Preauth, LoginPage, Identifier] + [Password, Resume] == FrontSteps + [Resume];
  }

  /**
   * The happy path through `Auth`: the access token of the token response is
   * returned and its tokens are stored, after the front requests, the resume GET
   * and the token request.
   */
  lemma GrantedLogin(acct: Account, t: Tokens, w: World, cookie: string, state: string, code: string, b: Body)
    requires !CacheHit(acct.useCache, t, w.now) && InputAcceptable(acct.email, acct.password)
    requires Plain(w.pkce.challenge) && Plain(cookie) && Plain(state)
    requires cookie != "" && state != "" && code != "" && w.replies == HappyReplies(cookie, state, code, b)
    ensures var o := Authenticate(acct, t, false, true, w);
      o.result == Success(b.accessToken) && o.tokens == Stored(b, w.grantedAt) &&
      Steps(o.sent) == FrontSteps + [Resume, TokenExchange]
  {
    var env := EnvOf(acct, false, w);
    PastGuards(acct, t, false, w);
    HappyRun(env, cookie, state, code, b);
    TokenRequested(TokenTail(env));
  }

  lemma TokenRequested(t: seq<Step>)
    requires t == [TokenExchange]
    ensures FrontSteps + [Resume] + t == FrontSteps + [Resume, TokenExchange]
  {
  }

  /**
   * The same provider through `AuthForCodeUrl`: the result is the verifier, a `|`
   * and the callback's code; no token request is sent and the tokens stay.
   */
  lemma CodePairLogin(acct: Account, t: Tokens, w: World, cookie: string, state: string, code: string, b: Body)
    requires !CacheHit(acct.useCache, t, w.now) && InputAcceptable(acct.email, acct.password)
    requires Plain(w.pkce.challenge) && Plain(cookie) && Plain(state)
    requires cookie != "" && state != "" && code != "" && w.replies == HappyReplies(cookie, state, code, b)
    ensures var o := Authenticate(acct, t, true, true, w);
      o.result == Success(w.pkce.verifier + "|" + code) && o.tokens == t &&
      Steps(o.sent) == FrontSteps + [Resume]
  {
    var env := EnvOf(acct, true, w);
    PastGuards(acct, t, true, w);
    HappyRun(env, cookie, state, code, b);
    NoTokenRequest(TokenTail(env));
  }

  lemma NoTokenRequest(t: seq<Step>)
    requires t == []
    ensures FrontSteps + [Resume] + t == FrontSteps + [Resume]
  {
  }

  /** The token response of the happy path: `tok`, `ref`, valid for an hour. */
  const Granted3600 := Body("", "tok", "ref", 3600)

  /**
   * The happy path with the token response `tok`/`ref`/3600: `tok` is returned and
   * stored with `ref`, expiring 55 minutes after it was granted, after six requests.
   */
  lemma HappyLogin(acct: Account, t: Tokens, w: World, cookie: string, state: string, code: string)
    requires !CacheHit(acct.useCache, t, w.now) && InputAcceptable(acct.email, acct.password)
    requires Plain(w.pkce.challenge) && Plain(cookie) && Plain(state)
    requires cookie != "" && state != "" && code != "" && w.replies == HappyReplies(cookie, state, code, Granted3600)
    ensures var o := Authenticate(acct, t, false, true, w);
      o.result == Success("tok") && o.tokens == Tokens("tok", "ref", w.grantedAt + 3300) && |o.sent| == 6
  {
    GrantedLogin(acct, t, w, cookie, state, code, Granted3600);
  }

  /** A 400 from the password page: "wrong email or password" after the password POST, with nothing sent after it. */
  lemma WrongPasswordLogin(acct: Account, t: Tokens, authForCode: bool, w: World, cookie: string, state: string, r: Response)
    requires !CacheHit(acct.useCache, t, w.now) && InputAcceptable(acct.email, acct.password)
    requires Plain(w.pkce.challenge) && Plain(cookie) && Plain(state)
    requires cookie != "" && state != "" && r.status == StatusBadRequest
    requires w.replies == FrontReplies(cookie, state) + [Reply(r)]
    ensures var o := Authenticate(acct, t, authForCode, true, w);
      o.result == Failure(WrongEmailOrPassword) &&
      o.tokens == t && Steps(o.sent) == FrontSteps
  {
    PastGuards(acct, t, authForCode, w);
    WrongPasswordRun(EnvOf(acct, authForCode, w), cookie, state, r);
  }

  lemma WrongPasswordRun(env: Env, cookie: string, state: string, r: Response)
    requires cookie != "" && state != "" && r.status == StatusBadRequest
    requires Plain(env.pkce.challenge) && Plain(cookie) && Plain(state)
    ensures var run := PartOne(env, FrontReplies(cookie, state) + [Reply(r)]);
      run.outcome == Failure(WrongEmailOrPassword) && Steps(run.sent) == FrontSteps
  {
    FrontThrough(env, cookie, state, [Reply(r)]);
    StatePagesAccepted(state);
    var five := PartFive(env, state, [Reply(r)]);
    assert five == Stop(five.sent[0], WrongEmailOrPassword);
  }

  /** partFive and partSix when the resume step redirects to an MFA challenge and no MFA code is configured. */
  lemma MfaMissingSteps(env: Env, state: string, challenge: Exchange)
    requires Plain(state)
    requires env.mfa == ""
    requires challenge.Reply? && challenge.response.status == StatusFound
    requires StartsWith(challenge.response.location, MfaChallengePrefix)
    ensures var five := PartFive(env, state, [ToResume(state), challenge]);
      Steps(five.sent) == [Password, Resume] && five.outcome == Failure(MfaMissing)
  {
    PrefixOf(ResumePrefix, "state=" + state);
    assert ResumePrefix + "state=" + state == ResumePrefix + ("state=" + state);
    StatePagesAccepted(state);
    var rest := [ToResume(state), challenge];
    assert Later(rest) == [challenge];
    var six := PartSix(env, ResumePrefix + "state=" + state, Later(rest));
    assert six == Stop(six.sent[0], MfaMissing);
    var five := PartFive(env, state, rest);
    assert five == Then(five.sent[0], six);
    StepsThen(five.sent[0], six);
  }

  /**
   * A redirect to the MFA challenge when no MFA code is configured: "mfa string not
   * found" after the resume GET, with no MFA POST.
   */
  lemma MfaMissingLogin(acct: Account, t: Tokens, authForCode: bool, w: World, cookie: string, state: string, challenge: Exchange)
    requires !CacheHit(acct.useCache, t, w.now) && InputAcceptable(acct.email, acct.password)
    requires Plain(w.pkce.challenge) && Plain(cookie) && Plain(state)
    requires acct.mfa == "" && cookie != "" && state != ""
    requires challenge.Reply? && challenge.response.status == StatusFound
    requires StartsWith(challenge.response.location, MfaChallengePrefix)
    requires w.replies == FrontReplies(cookie, state) + [ToResume(state), challenge]
    ensures var o := Authenticate(acct, t, authForCode, true, w);
      o.result == Failure(MfaMissing) &&
      o.tokens == t && Steps(o.sent) == FrontSteps + [Resume]
  {
    PastGuards(acct, t, authForCode, w);
    MfaMissingRun(EnvOf(acct, authForCode, w), cookie, state, challenge);
  }

  lemma MfaMissingRun(env: Env, cookie: string, state: string, challenge: Exchange)
    requires env.mfa == "" && cookie != "" && state != ""
    requires Plain(env.pkce.challenge) && Plain(cookie) && Plain(state)
    requires challenge.Reply? && challenge.response.status == StatusFound
    requires StartsWith(challenge.response.location, MfaChallengePrefix)
    ensures var run := PartOne(env, FrontReplies(cookie, state) + [ToResume(state), challenge]);
      run.outcome == Failure(MfaMissing) && Steps(run.sent) == FrontSteps + [Resume]
  {
    FrontThrough(env, cookie, state, [ToResume(state), challenge]);
    MfaMissingSteps(env, state, challenge);
  }

  /**
   * A fresh object with caching on logs in on the happy path, and a second `Auth`
   * before the stored expiry returns the same token without sending anything.
   */
  method CachedSecondCall(email: string, password: string, w: World, w2: World, cookie: string, state: string, code: string)
    returns (first: Result<string, AuthError>, second: Result<string, AuthError>, sent2: seq<Request>)
    requires InputAcceptable(email, password)
    requires Plain(w.pkce.challenge) && Plain(cookie) && Plain(state)
    requires cookie != "" && state != "" && code != "" && w.replies == HappyReplies(cookie, state, code, Granted3600)
    requires w2.now < w.grantedAt + 3300
    ensures first == Success("tok") && second == Success("tok") && sent2 == []
  {
    var a := new Auth0(email, password, "", true);
    HappyLogin(a.Acct(), a.Cached(), w, cookie, state, code);
    var sent1;
    first, sent1 := a.Auth(true, w);
    second, sent2 := a.Auth(true, w2);
  }
}
