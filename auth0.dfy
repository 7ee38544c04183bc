/**
 * The `Auth0` object of auth/auth.go: the account it was made for, the cached
 * tokens, and the auth-for-code flag; the two entry points `Auth` and
 * `AuthForCodeUrl` that guard on the cache and on the input before starting a
 * login, and the storing of a granted token.
 *
 * What a call reads from outside the object (the clock, the gateway date, the
 * PKCE pair and the provider's replies) is a parameter, a `World`.
 */
module Auth {
  import opened Wrappers
  import opened Text
  import opened Protocol
  import opened Email
  import opened Flow
  import opened LoginProperties

  /** The five minutes taken off a token's lifetime when it is stored. */
  const SafetyMargin := 300

  /** Go's zero `time.Time` (1 January of year 1, UTC) in Unix seconds: the expiry of a new object. */
  const ZeroTime := -62135596800

  /** The cached credentials: `accessToken`, `refreshToken` and `expires` in Unix seconds. */
  datatype Tokens = Tokens(accessToken: string, refreshToken: string, expires: int)

  /** The fields an `Auth0` is made with and never changes. */
  datatype Account = Account(email: string, password: string, mfa: string, useCache: bool)

  /**
   * What one call reads from outside the object: the time of the cache guard, the
   * time the token is stored, yesterday's date as `YYYYMMDD`, the PKCE pair, and
   * the replies to the requests in the order they are sent.
   */
  datatype World = World(now: int, grantedAt: int, yesterday: string, pkce: Pkce, replies: seq<Exchange>)

  /** What a call returns, the cached tokens after it, and the requests it sent. */
  datatype Outcome = Outcome(result: Result<string, AuthError>, tokens: Tokens, sent: seq<Request>)

  const GatewayHead := "https://ai-"
  const GatewayTail := ".fakeopen.com"

  /** DefaultApiPrefix: the gateway origin of the given date; the date can be read back from it. */
  function DefaultApiPrefix(yesterday: string): (prefix: string)
    ensures StartsWith(prefix, GatewayHead) && |prefix| == |GatewayHead| + |yesterday| + |GatewayTail|
    ensures prefix[|GatewayHead|..|prefix| - |GatewayTail|] == yesterday
    ensures prefix[|prefix| - |GatewayTail|..] == GatewayTail
  {
    GatewayHead + yesterday + GatewayTail
  }

  /** The tokens a 200 token response leaves in the object, stored at `grantedAt`. */
  function Stored(b: Body, grantedAt: int): Tokens
  {
    Tokens(b.accessToken, b.refreshToken, grantedAt + b.expiresIn - SafetyMargin)
  }

  /** The cache guard: caching is on, a token is held, and its expiry is strictly after `now`. */
  predicate CacheHit(useCache: bool, t: Tokens, now: int)
  {
    useCache && t.accessToken != "" && t.expires > now
  }

  /** The input check: the email passes `checkEmail` and the password is not empty. */
  predicate InputAcceptable(email: string, password: string)
  {
    CheckEmail(email) && password != ""
  }

  /** The environment a login run of this account reads. */
  function EnvOf(acct: Account, authForCode: bool, w: World): Env
  {
    Env(acct.email, acct.password, acct.mfa, authForCode, DefaultApiPrefix(w.yesterday), w.pkce)
  }

  /** How the end of a run shows in the object: a granted token is stored and returned; a code pair or an error leaves the tokens. */
  function Settle(run: Run, t: Tokens, grantedAt: int): Outcome
  {
    match run.outcome
    case Failure(e) => Outcome(Failure(e), t, run.sent)
    case Success(CodePair(p)) => Outcome(Success(p), t, run.sent)
    case Success(Granted(b)) => Outcome(Success(b.accessToken), Stored(b, grantedAt), run.sent)
  }

  /**
   * One call of `Auth` (or, with `authForCode` true and `loginLocal` true, of
   * `AuthForCodeUrl`) on an object holding `t`: the cache guard, then the input
   * check, then a local login or the gateway login.
   */
  function Authenticate(acct: Account, t: Tokens, authForCode: bool, loginLocal: bool, w: World): Outcome
  {
    if CacheHit(acct.useCache, t, w.now) then Outcome(Success(t.accessToken), t, [])
    else if !InputAcceptable(acct.email, acct.password) then Outcome(Failure(InvalidEmailOrPassword), t, [])
    else
      var env := EnvOf(acct, authForCode, w);
      Settle(if loginLocal then PartOne(env, w.replies) else GetAccessTokenProxy(env, w.replies), t, w.grantedAt)
  }

  class Auth0 {
    const email: string
    const password: string
    const mfa: string
    const useCache: bool
    var accessToken: string
    var refreshToken: string
    var expires: int
    var authForCode: bool

    /** NewAuth0: no token, the zero expiry, and auth-for-code mode off. */
    constructor (email: string, password: string, mfa: string, useCache: bool)
      ensures this.email == email && this.password == password && this.mfa == mfa && this.useCache == useCache
      ensures accessToken == "" && refreshToken == "" && expires == ZeroTime && !authForCode
    {
      this.email := email;
      this.password := password;
      this.mfa := mfa;
      this.useCache := useCache;
      accessToken := "";
      refreshToken := "";
      expires := ZeroTime;
      authForCode := false;
    }

    function Acct(): Account
    {
      Account(email, password, mfa, useCache)
    }

    function Cached(): Tokens
      reads this
    {
      Tokens(accessToken, refreshToken, expires)
    }

    /** Auth: the cached token while it is fresh, else the input check, else a login run. */
    method Auth(loginLocal: bool, w: World) returns (r: Result<string, AuthError>, sent: seq<Request>)
      modifies this
      ensures var o := Authenticate(Acct(), old(Cached()), old(authForCode), loginLocal, w);
        r == o.result && sent == o.sent && Cached() == o.tokens
      ensures authForCode == old(authForCode)
    {
      if CacheHit(useCache, Cached(), w.now) {
        return Success(accessToken), [];
      }
      if !InputAcceptable(email, password) {
        return Failure(InvalidEmailOrPassword), [];
      }
      var env := EnvOf(Acct(), authForCode, w);
      var run := if loginLocal then PartOne(env, w.replies) else GetAccessTokenProxy(env, w.replies);
      r, sent := Finish(run, w.grantedAt);
    }

    /** AuthForCodeUrl: turns auth-for-code mode on for good, then guards and runs a local login as `Auth` does. */
    method AuthForCodeUrl(w: World) returns (r: Result<string, AuthError>, sent: seq<Request>)
      modifies this
      ensures var o := Authenticate(Acct(), old(Cached()), true, true, w);
        r == o.result && sent == o.sent && Cached() == o.tokens
      ensures authForCode
    {
      authForCode := true;
      if CacheHit(useCache, Cached(), w.now) {
        return Success(accessToken), [];
      }
      if !InputAcceptable(email, password) {
        return Failure(InvalidEmailOrPassword), [];
      }
      var env := EnvOf(Acct(), authForCode, w);
      r, sent := Finish(PartOne(env, w.replies), w.grantedAt);
    }

    /** The end of a run: a granted token is stored and returned; otherwise the run's result is returned and the tokens stay. */
    method Finish(run: Run, grantedAt: int) returns (r: Result<string, AuthError>, sent: seq<Request>)
      modifies this
      ensures var o := Settle(run, old(Cached()), grantedAt);
        r == o.result && sent == o.sent && Cached() == o.tokens
      ensures authForCode == old(authForCode)
    {
      sent := run.sent;
      match run.outcome
      case Failure(e) =>
        r := Failure(e);
      case Success(CodePair(p)) =>
        r := Success(p);
      case Success(Granted(b)) =>
        StoreToken(b, grantedAt);
        r := Success(accessToken);
    }

    /** The token-storing tail of getAccessToken and getAccessTokenProxy. */
    method StoreToken(b: Body, grantedAt: int)
      modifies this
      ensures Cached() == Stored(b, grantedAt)
      ensures authForCode == old(authForCode)
    {
      accessToken := b.accessToken;
      refreshToken := b.refreshToken;
      expires := grantedAt + b.expiresIn - SafetyMargin;
    }

    /** GetRefreshToken: the refresh token of the last grant, "" before any. */
    method GetRefreshToken() returns (token: string)
      ensures token == Cached().refreshToken
    {
      token := refreshToken;
    }
  }

  // ---------------------------------------------------------------------------
  // The guards

  /** A fresh cached token is returned as it is, with no request sent and the tokens untouched. */
  lemma CacheGuard(acct: Account, t: Tokens, authForCode: bool, loginLocal: bool, w: World)
    requires CacheHit(acct.useCache, t, w.now)
    ensures Authenticate(acct, t, authForCode, loginLocal, w) == Outcome(Success(t.accessToken), t, [])
  {
  }

  /** Past the cache guard, an input that fails the check is "invalid email or password", with no request sent and the tokens untouched. */
  lemma InputCheck(acct: Account, t: Tokens, authForCode: bool, loginLocal: bool, w: World)
    requires !CacheHit(acct.useCache, t, w.now) && !InputAcceptable(acct.email, acct.password)
    ensures var o := Authenticate(acct, t, authForCode, loginLocal, w);
      o == Outcome(Failure(InvalidEmailOrPassword), t, []) && Message(o.result.error) == "invalid email or password"
  {
  }

  /** A call sends a request exactly when the cache guard does not fire and the input passes the check. */
  lemma NetworkOnlyPastGuards(acct: Account, t: Tokens, authForCode: bool, loginLocal: bool, w: World)
    ensures Authenticate(acct, t, authForCode, loginLocal, w).sent != [] <==>
      !CacheHit(acct.useCache, t, w.now) && InputAcceptable(acct.email, acct.password)
  {
    if !CacheHit(acct.useCache, t, w.now) && InputAcceptable(acct.email, acct.password) {
      var env := EnvOf(acct, authForCode, w);
      var run := if loginLocal then PartOne(env, w.replies) else GetAccessTokenProxy(env, w.replies);
      assert run.sent != [];
    }
  }

  /** Past both guards, a local login settles the run of partOne. */
  lemma PastGuards(acct: Account, t: Tokens, authForCode: bool, w: World)
    requires !CacheHit(acct.useCache, t, w.now) && InputAcceptable(acct.email, acct.password)
    ensures Authenticate(acct, t, authForCode, true, w) == Settle(PartOne(EnvOf(acct, authForCode, w), w.replies), t, w.grantedAt)
  {
  }

  // ---------------------------------------------------------------------------
  // Token storage and the cache

  /**
   * A stored token expires `SafetyMargin` seconds before the provider says it
   * does, and it is served from the cache at `later` exactly when it is not empty
   * and `later` is before that expiry.
   */
  lemma StoredExpiry(b: Body, grantedAt: int, later: int)
    ensures Stored(b, grantedAt).expires == grantedAt + b.expiresIn - SafetyMargin
    ensures Stored(b, grantedAt).expires < grantedAt + b.expiresIn
    ensures CacheHit(true, Stored(b, grantedAt), later) <==>
      b.accessToken != "" && later < grantedAt + b.expiresIn - SafetyMargin
  {
  }

  /**
   * The tokens change only by a grant: either they stay as they were, or the call
   * succeeded with the new access token and its last request was a token request
   * or the gateway login.
   */
  lemma TokensOnlyFromGrant(acct: Account, t: Tokens, authForCode: bool, loginLocal: bool, w: World)
    ensures var o := Authenticate(acct, t, authForCode, loginLocal, w);
      o.tokens == t ||
      (o.result == Success(o.tokens.accessToken) && o.sent != [] &&
       o.sent[|o.sent| - 1].step in {TokenExchange, ProxyLogin})
  {
    if !CacheHit(acct.useCache, t, w.now) && InputAcceptable(acct.email, acct.password) {
      var env := EnvOf(acct, authForCode, w);
      if loginLocal {
        LoginChain(env, w.replies);
      }
    }
  }

  /**
   * The cache round trip: after a call that stored a non-empty token, a call with
   * caching on, at any time before the stored expiry, returns that same token
   * without sending anything and without changing the tokens.
   */
  lemma CacheRoundTrip(acct: Account, t: Tokens, authForCode: bool, loginLocal: bool, w: World,
                       authForCode2: bool, loginLocal2: bool, w2: World)
    requires acct.useCache
    requires var o := Authenticate(acct, t, authForCode, loginLocal, w);
      o.tokens != t && o.tokens.accessToken != "" && w2.now < o.tokens.expires
    ensures var o := Authenticate(acct, t, authForCode, loginLocal, w);
      Authenticate(acct, o.tokens, authForCode2, loginLocal2, w2) == Outcome(o.result, o.tokens, [])
  {
    TokensOnlyFromGrant(acct, t, authForCode, loginLocal, w);
  }

  // ---------------------------------------------------------------------------
  // The two kinds of login

  /**
   * A local login in auth-for-code mode never touches the tokens and sends no
   * token request; when it succeeds past the cache, its result is the run's
   * verifier, a `|`, and a non-empty code.
   */
  lemma CodeModeKeepsTokens(acct: Account, t: Tokens, w: World)
    ensures var o := Authenticate(acct, t, true, true, w);
      o.tokens == t &&
      (forall i | 0 <= i < |o.sent| :: o.sent[i].step != TokenExchange) &&
      (o.sent != [] && o.result.Success? ==>
        StartsWith(o.result.value, w.pkce.verifier + "|") && |o.result.value| > |w.pkce.verifier| + 1)
  {
    if !CacheHit(acct.useCache, t, w.now) && InputAcceptable(acct.email, acct.password) {
      LoginChain(EnvOf(acct, true, w), w.replies);
    }
  }

  /**
   * A local login sends its requests in the order of the chain (preauth, login
   * page, identifier, password, then resume with MFA rounds and at most one token
   * request), each token request with the run's own verifier, no MFA POST without
   * an MFA code, and at most one request more than there are replies.
   */
  lemma LocalLogin(acct: Account, t: Tokens, authForCode: bool, w: World)
    ensures var o := Authenticate(acct, t, authForCode, true, w);
      var env := EnvOf(acct, authForCode, w);
      LoginOrder(Steps(o.sent)) && TokenRequestsCarryVerifier(env, o.sent) &&
      MfaOnlyWithCode(env, o.sent) && |o.sent| <= |w.replies| + 1
  {
    if !CacheHit(acct.useCache, t, w.now) && InputAcceptable(acct.email, acct.password) {
      LoginChain(EnvOf(acct, authForCode, w), w.replies);
    }
  }

  /**
   * The gateway login sends one POST of the credentials to the gateway of
   * yesterday's date, and a 200 with a decodable body stores that body's tokens,
   * even in auth-for-code mode.
   */
  lemma GatewayLogin(acct: Account, t: Tokens, authForCode: bool, w: World)
    requires !CacheHit(acct.useCache, t, w.now) && InputAcceptable(acct.email, acct.password)
    ensures var o := Authenticate(acct, t, authForCode, false, w);
      o.sent == [Request(ProxyLogin, POST, DefaultApiPrefix(w.yesterday) + "/auth/login",
                         map["username" := acct.email, "password" := acct.password, "mfa_code" := acct.mfa], false)] &&
      (w.replies != [] && w.replies[0].Reply? && w.replies[0].response.status == StatusOK &&
       w.replies[0].response.body.Success? ==>
         var b := w.replies[0].response.body.value;
         o.result == Success(b.accessToken) && o.tokens == Stored(b, w.grantedAt))
  {
  }
}
