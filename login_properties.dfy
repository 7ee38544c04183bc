/**
 * What the login chain of auth/auth.go guarantees, proved about the functions of
 * module Flow: how each step classifies its reply, the order in which requests
 * go out, that the state and the PKCE verifier are threaded unchanged, and what
 * auth-for-code mode and a missing MFA code rule out.
 */
module LoginProperties {
  import opened Wrappers
  import opened Text
  import opened Protocol
  import opened AuthorizeUrl
  import opened RequestUrl
  import opened Flow

  /** The steps of a sequence of requests. */
  function Steps(sent: seq<Request>): (s: seq<Step>)
    ensures |s| == |sent|
    ensures forall i | 0 <= i < |sent| :: s[i] == sent[i].step
  {
    if sent == [] then [] else [sent[0].step] + Steps(sent[1..])
  }

  /** The four requests before the resume step, in the order partOne, partThree, partFour and partFive send them. */
  const FrontSteps := [Preauth, LoginPage, Identifier, Password]

  /**
   * From the resume step on: `Resume`, then any number of `MfaCode, Resume` rounds,
   * then possibly one `TokenExchange`; a failure may cut the sequence short after any request.
   */
  predicate ResumeOrder(s: seq<Step>)
    decreases |s|
  {
    s == [] ||
    (s[0] == Resume &&
      (|s| == 1 || s[1..] == [TokenExchange] || (s[1] == MfaCode && ResumeOrder(s[2..]))))
  }

  /** The order of a run that starts at front step `k`: the rest of the front steps (or a prefix of them), then the resume loop. */
  predicate OrderFrom(k: nat, s: seq<Step>)
    requires k <= |FrontSteps|
  {
    var front := FrontSteps[k..];
    if |s| <= |front| then s == front[..|s|]
    else s[..|front|] == front && ResumeOrder(s[|front|..])
  }

  /** The order of a whole local login. */
  predicate LoginOrder(s: seq<Step>)
  {
    OrderFrom(0, s)
  }

  /** Every token request carries the run's own verifier, and none is sent in auth-for-code mode. */
  predicate TokenRequestsCarryVerifier(env: Env, sent: seq<Request>)
  {
    forall i | 0 <= i < |sent| && sent[i].step == TokenExchange ::
      !env.authForCode && "code_verifier" in sent[i].form && sent[i].form["code_verifier"] == env.pkce.verifier
  }

  /** Without an MFA code no MFA POST is sent. */
  predicate MfaOnlyWithCode(env: Env, sent: seq<Request>)
  {
    env.mfa == "" ==> forall i | 0 <= i < |sent| :: sent[i].step != MfaCode
  }

  /**
   * A code pair is `verifier|code` with a non-empty code and arises only in
   * auth-for-code mode; tokens are granted only outside that mode, by a token
   * request that is the last request of the run.
   */
  predicate GrantFits(env: Env, run: Run)
  {
    match run.outcome
    case Success(CodePair(p)) =>
      env.authForCode && StartsWith(p, env.pkce.verifier + "|") && |p| > |env.pkce.verifier| + 1
    case Success(Granted(_)) =>
      !env.authForCode && run.sent != [] && run.sent[|run.sent| - 1].step == TokenExchange
    case Failure(_) => true
  }

  /** Everything proved of a run that starts at the resume step. */
  predicate LoopRunFits(env: Env, run: Run)
  {
    ResumeOrder(Steps(run.sent)) && TokenRequestsCarryVerifier(env, run.sent) &&
    MfaOnlyWithCode(env, run.sent) && GrantFits(env, run)
  }

  lemma StepsThen(q: Request, rest: Run)
    ensures Steps(Then(q, rest).sent) == [q.step] + Steps(rest.sent)
  {
    assert Then(q, rest).sent == [q] + rest.sent;
  }

  /** Sending one more request that is not a token request, in front of a run, keeps what LoopRunFits says of the requests and the grant. */
  lemma FitsThen(env: Env, q: Request, rest: Run)
    requires q.step != TokenExchange && q.step != MfaCode
    requires TokenRequestsCarryVerifier(env, rest.sent) && MfaOnlyWithCode(env, rest.sent) && GrantFits(env, rest)
    ensures TokenRequestsCarryVerifier(env, Then(q, rest).sent) && MfaOnlyWithCode(env, Then(q, rest).sent)
    ensures GrantFits(env, Then(q, rest))
  {
    var sent := Then(q, rest).sent;
    assert forall i | 1 <= i < |sent| :: sent[i] == rest.sent[i - 1];
  }

  /** The same for the MFA POST, which is sent only when an MFA code is configured. */
  lemma FitsThenMfa(env: Env, q: Request, rest: Run)
    requires q.step == MfaCode && env.mfa != ""
    requires TokenRequestsCarryVerifier(env, rest.sent) && GrantFits(env, rest)
    ensures TokenRequestsCarryVerifier(env, Then(q, rest).sent) && MfaOnlyWithCode(env, Then(q, rest).sent)
    ensures GrantFits(env, Then(q, rest))
  {
    var sent := Then(q, rest).sent;
    assert forall i | 1 <= i < |sent| :: sent[i] == rest.sent[i - 1];
  }

  // ---------------------------------------------------------------------------
  // One step at a time

  /**
   * partFive: a password URL `http.NewRequest` rejects ends the run with nothing
   * sent. Otherwise the POST goes out; a 302 to `/authorize/resume?` goes to partSix
   * with exactly that location; any other 302 is "login callback failed", a 400
   * "wrong email or password", anything else "error logging in"; a failure sends
   * nothing after the password POST.
   */
  lemma PasswordStep(env: Env, state: string, replies: seq<Exchange>)
    ensures var run, fault := PartFive(env, state, replies), NewRequestFault(PasswordUrl(state));
      fault.Some? ==> run == Abort(RequestBuildFailed(fault.value))
    ensures var run, fault := PartFive(env, state, replies), NewRequestFault(PasswordUrl(state));
      fault.None? ==>
      run.sent != [] &&
      run.sent[0] == Request(Password, POST, PasswordUrl(state),
                             map["state" := state, "username" := env.email, "password" := env.password, "action" := "default"], false)
    ensures var run, a := PartFive(env, state, replies), Answer(replies);
      NewRequestFault(PasswordUrl(state)).None? && a.TransportError? ==>
        run == Stop(run.sent[0], RequestFailed(Password, a.reason))
    ensures var run, a := PartFive(env, state, replies), Answer(replies);
      NewRequestFault(PasswordUrl(state)).None? &&
      a.Reply? && a.response.status == StatusFound && StartsWith(a.response.location, ResumePrefix) ==>
        run == Then(run.sent[0], PartSix(env, a.response.location, Later(replies)))
    ensures var run, a := PartFive(env, state, replies), Answer(replies);
      NewRequestFault(PasswordUrl(state)).None? &&
      a.Reply? && a.response.status == StatusFound && !StartsWith(a.response.location, ResumePrefix) ==>
        run == Stop(run.sent[0], LoginCallbackFailed)
    ensures var run, a := PartFive(env, state, replies), Answer(replies);
      NewRequestFault(PasswordUrl(state)).None? && a.Reply? && a.response.status == StatusBadRequest ==>
        run == Stop(run.sent[0], WrongEmailOrPassword)
    ensures var run, a := PartFive(env, state, replies), Answer(replies);
      NewRequestFault(PasswordUrl(state)).None? &&
      a.Reply? && a.response.status != StatusFound && a.response.status != StatusBadRequest ==>
        run == Stop(run.sent[0], LoginError)
  {
  }

  /**
   * partSix: a resume URL `http.NewRequest` rejects ends the run with nothing sent.
   * Otherwise the GET goes out; a 302 to the MFA challenge fails with "mfa string not
   * found" when no code is configured and otherwise goes to partSeven; a 302 to the
   * app callback goes to the token exchange with that location; any other 302 is
   * "login callback failed" and any other status "error logging in".
   */
  lemma ResumeStep(env: Env, location: string, replies: seq<Exchange>)
    ensures var run, fault := PartSix(env, location, replies), NewRequestFault(AuthHost + location);
      if fault.Some? then run == Abort(RequestBuildFailed(fault.value))
      else
      run.sent != [] && run.sent[0] == Request(Resume, GET, AuthHost + location, map[], false) &&
      match Answer(replies)
      case TransportError(why) => run == Run([run.sent[0]], Failure(RequestFailed(Resume, why)))
      case Reply(r) =>
        if r.status != StatusFound then run == Run([run.sent[0]], Failure(LoginError))
        else if StartsWith(r.location, MfaChallengePrefix) then
          if env.mfa == "" then run == Run([run.sent[0]], Failure(MfaMissing))
          else run == Then(run.sent[0], PartSeven(env, r.location, r.locationUrl, Later(replies)))
        else if StartsWith(r.location, CallbackPrefix) then
          run == Then(run.sent[0], GetAccessToken(env, r.location, r.locationUrl, Later(replies)))
        else run == Run([run.sent[0]], Failure(LoginCallbackFailed))
  {
  }

  /**
   * partSeven: a challenge URL that does not parse, whose query does not parse or
   * that has no `state` is an error before any request;
   * otherwise the code is posted, a 302 to `/authorize/resume?` returns to
   * partSix, any other 302 is "login with mfa callback failed", a 400 "wrong mfa
   * code for login" and anything else "login failed with wrong email or password".
   */
  lemma MfaStep(env: Env, location: string, challengeUrl: ParsedUrl, replies: seq<Exchange>)
    ensures var run := PartSeven(env, location, challengeUrl, replies);
      if challengeUrl.Unparsable? then run == Abort(UrlParseFailed(challengeUrl.reason))
      else if challengeUrl.query.err.Some? then run == Abort(QueryParseFailed(challengeUrl.query.err.value))
      else if Lookup(challengeUrl.query.params, "state") == "" then run == Abort(StateNotFound)
      else
        var state := Lookup(challengeUrl.query.params, "state");
        run.sent != [] &&
        run.sent[0] == Request(MfaCode, POST, AuthHost + location, map["state" := state, "code" := env.mfa, "action" := "default"], false) &&
        match Answer(replies)
        case TransportError(why) => run == Run([run.sent[0]], Failure(RequestFailed(MfaCode, why)))
        case Reply(r) =>
          if r.status == StatusFound && StartsWith(r.location, ResumePrefix) then
            run == Then(run.sent[0], PartSix(env, r.location, Later(replies)))
          else
            run.sent == [run.sent[0]] &&
            run.outcome == Failure(
              if r.status == StatusFound then MfaCallbackFailed
              else if r.status == StatusBadRequest then WrongMfaCode
              else MfaLoginFailed)
  {
  }

  /**
   * getAccessToken: a callback URL that does not parse is an error; then a non-empty `error` wins and yields "<error>: <error_description>";
   * then an empty `code` is an error; in auth-for-code mode the result is
   * `verifier|code` and no request is sent; otherwise one token request carrying
   * the code and the verifier is sent.
   */
  lemma CallbackStep(env: Env, callbackUrl: string, parsed: ParsedUrl, replies: seq<Exchange>)
    ensures var run := GetAccessToken(env, callbackUrl, parsed, replies);
      if parsed.Unparsable? then run == Abort(CallbackParseFailed(parsed.reason))
      else
      var params := parsed.query.params;
      if Lookup(params, "error") != "" then
        run == Run([], Failure(ProviderError(Lookup(params, "error"), Lookup(params, "error_description"))))
      else if Lookup(params, "code") == "" then
        run == Run([], Failure(CodeMissing(callbackUrl)))
      else if env.authForCode then
        run == Run([], Success(CodePair(env.pkce.verifier + "|" + Lookup(params, "code"))))
      else
        run.sent == [Request(TokenExchange, POST, TokenUrl, TokenForm(env, Lookup(params, "code")), false)]
  {
  }

  /**
   * The token-response tail of getAccessToken and getAccessTokenProxy: only a 200
   * whose body decodes grants tokens, and it grants exactly the decoded body.
   */
  lemma TokenReplyGrants(q: Request, step: Step, reply: Exchange)
    ensures var run := TokenReply(q, step, reply);
      run.sent == [q] &&
      (run.outcome.Success? <==> reply.Reply? && reply.response.status == StatusOK && reply.response.body.Success?) &&
      (run.outcome.Success? ==> run.outcome.value == Granted(reply.response.body.value)) &&
      (reply.Reply? && reply.response.status != StatusOK ==> run.outcome == Failure(TokenRejected(reply.response.statusLine)))
  {
  }

  // ---------------------------------------------------------------------------
  // The resume loop

  /** A run that starts at partSix keeps the order and the verifier, needs an MFA code for an MFA POST, and grants only as GrantFits says. */
  lemma {:induction false} ResumeLoop(env: Env, location: string, replies: seq<Exchange>)
    ensures LoopRunFits(env, PartSix(env, location, replies))
    ensures |PartSix(env, location, replies).sent| <= |replies| + 1
    decreases |replies|, 1
  {
    var run := PartSix(env, location, replies);
    var q := Request(Resume, GET, AuthHost + location, map[], false);
    ResumeStep(env, location, replies);
    var a := Answer(replies);
    if NewRequestFault(AuthHost + location).None? && a.Reply? && a.response.status == StatusFound {
      var r := a.response;
      if StartsWith(r.location, MfaChallengePrefix) {
        if env.mfa != "" {
          var rest := PartSeven(env, r.location, r.locationUrl, Later(replies));
          MfaLoop(env, r.location, r.locationUrl, Later(replies));
          assert run == Then(q, rest);
          StepsThen(q, rest);
          FitsThen(env, q, rest);
          if rest.sent != [] {
            assert Steps(run.sent)[2..] == Steps(rest.sent)[1..] == Steps(rest.sent[1..]);
          }
        }
      } else if StartsWith(r.location, CallbackPrefix) {
        var rest := GetAccessToken(env, r.location, r.locationUrl, Later(replies));
        CallbackRun(env, r.location, r.locationUrl, Later(replies));
        assert run == Then(q, rest);
        StepsThen(q, rest);
        FitsThen(env, q, rest);
      }
    }
  }

  /** A run that starts at partSeven: nothing, or the MFA POST followed by a resume-loop run. */
  lemma {:induction false} MfaLoop(env: Env, location: string, challengeUrl: ParsedUrl, replies: seq<Exchange>)
    requires env.mfa != ""
    ensures var run := PartSeven(env, location, challengeUrl, replies);
      (run.sent == [] || (run.sent[0].step == MfaCode && ResumeOrder(Steps(run.sent[1..])))) &&
      TokenRequestsCarryVerifier(env, run.sent) && GrantFits(env, run) &&
      |run.sent| <= |replies| + 1
    decreases |replies|, 0
  {
    var run := PartSeven(env, location, challengeUrl, replies);
    MfaStep(env, location, challengeUrl, replies);
    if challengeUrl.Parsed? && challengeUrl.query.err.None? {
      var state := Lookup(challengeUrl.query.params, "state");
      var a := Answer(replies);
      if state != "" && a.Reply? && a.response.status == StatusFound && StartsWith(a.response.location, ResumePrefix) {
        var q := Request(MfaCode, POST, AuthHost + location, map["state" := state, "code" := env.mfa, "action" := "default"], false);
        var rest := PartSix(env, a.response.location, Later(replies));
        ResumeLoop(env, a.response.location, Later(replies));
        assert run == Then(q, rest);
        FitsThenMfa(env, q, rest);
        assert run.sent[1..] == rest.sent;
      }
    }
  }

  /** A run that starts at getAccessToken: at most the token request, sent only outside auth-for-code mode and carrying the verifier. */
  lemma CallbackRun(env: Env, callbackUrl: string, parsed: ParsedUrl, replies: seq<Exchange>)
    ensures var run := GetAccessToken(env, callbackUrl, parsed, replies);
      (run.sent == [] || Steps(run.sent) == [TokenExchange]) &&
      TokenRequestsCarryVerifier(env, run.sent) && MfaOnlyWithCode(env, run.sent) && GrantFits(env, run) &&
      |run.sent| <= 1
  {
    var run := GetAccessToken(env, callbackUrl, parsed, replies);
    if run.outcome.Success? && run.outcome.value.CodePair? {
      var code := Lookup(parsed.query.params, "code");
      assert run.outcome.value.pair == env.pkce.verifier + "|" + code;
    }
  }

  // ---------------------------------------------------------------------------
  // The whole chain

  /** Everything proved of a run that starts at front step `k` with `n` replies supplied. */
  predicate ChainFits(env: Env, k: nat, run: Run, n: nat)
    requires k <= |FrontSteps|
  {
    OrderFrom(k, Steps(run.sent)) && TokenRequestsCarryVerifier(env, run.sent) &&
    MfaOnlyWithCode(env, run.sent) && GrantFits(env, run) && |run.sent| <= n + 1
  }

  lemma OrderCons(k: nat, s: seq<Step>)
    requires k < |FrontSteps| && OrderFrom(k + 1, s)
    ensures OrderFrom(k, [FrontSteps[k]] + s)
  {
    var t := [FrontSteps[k]] + s;
    var front := FrontSteps[k..];
    assert front == [FrontSteps[k]] + FrontSteps[k + 1..];
    if |s| <= |FrontSteps[k + 1..]| {
      assert t == front[..|t|];
    } else {
      assert t[..|front|] == [FrontSteps[k]] + s[..|front| - 1];
      assert t[|front|..] == s[|front| - 1..];
    }
  }

  /** A front step that ends the run. */
  lemma ChainStop(env: Env, k: nat, q: Request, e: AuthError, n: nat)
    requires k < |FrontSteps| && q.step == FrontSteps[k]
    ensures ChainFits(env, k, Stop(q, e), n)
  {
    assert Steps([q]) == [FrontSteps[k]] + Steps([]);
    OrderCons(k, []);
  }

  /** A front step whose request `http.NewRequest` refused: nothing is sent. */
  lemma ChainAbort(env: Env, k: nat, e: AuthError, n: nat)
    requires k <= |FrontSteps|
    ensures ChainFits(env, k, Abort(e), n)
  {
    assert Steps([]) == [];
  }

  /** A front step followed by the run of the next step. */
  lemma ChainThen(env: Env, k: nat, q: Request, rest: Run, n: nat)
    requires k < |FrontSteps| && q.step == FrontSteps[k]
    requires ChainFits(env, k + 1, rest, n)
    ensures ChainFits(env, k, Then(q, rest), n + 1)
  {
    StepsThen(q, rest);
    OrderCons(k, Steps(rest.sent));
    FitsThen(env, q, rest);
  }

  /** From the resume step on, the loop lemma gives what ChainFits asks at the end of the front steps. */
  lemma ResumeChain(env: Env, location: string, replies: seq<Exchange>)
    ensures ChainFits(env, |FrontSteps|, PartSix(env, location, replies), |replies|)
  {
    ResumeLoop(env, location, replies);
  }

  lemma PasswordChain(env: Env, state: string, replies: seq<Exchange>)
    ensures ChainFits(env, 3, PartFive(env, state, replies), |replies|)
  {
    var run := PartFive(env, state, replies);
    PasswordStep(env, state, replies);
    var a := Answer(replies);
    if NewRequestFault(PasswordUrl(state)).Some? {
      ChainAbort(env, 3, run.outcome.error, |replies|);
    } else if a.Reply? && a.response.status == StatusFound && StartsWith(a.response.location, ResumePrefix) {
      ResumeChain(env, a.response.location, Later(replies));
      ChainThen(env, 3, run.sent[0], PartSix(env, a.response.location, Later(replies)), |Later(replies)|);
    } else {
      ChainStop(env, 3, run.sent[0], run.outcome.error, |replies|);
    }
  }

  lemma IdentifierChain(env: Env, state: string, replies: seq<Exchange>)
    ensures ChainFits(env, 2, PartFour(env, state, replies), |replies|)
  {
    var q := Request(Identifier, POST, IdentifierUrl(state), IdentifierForm(env, state), false);
    var a := Answer(replies);
    if NewRequestFault(IdentifierUrl(state)).Some? {
      ChainAbort(env, 2, PartFour(env, state, replies).outcome.error, |replies|);
    } else if a.Reply? && a.response.status == StatusFound {
      PasswordChain(env, state, Later(replies));
      ChainThen(env, 2, q, PartFive(env, state, Later(replies)), |Later(replies)|);
    } else {
      ChainStop(env, 2, q, PartFour(env, state, replies).outcome.error, |replies|);
    }
  }

  lemma LoginPageChain(env: Env, authorizeUrl: string, replies: seq<Exchange>)
    ensures ChainFits(env, 1, PartThree(env, authorizeUrl, replies), |replies|)
  {
    var q := Request(LoginPage, GET, authorizeUrl, map[], true);
    var a := Answer(replies);
    if NewRequestFault(authorizeUrl).Some? {
      ChainAbort(env, 1, PartThree(env, authorizeUrl, replies).outcome.error, |replies|);
    } else if a.Reply? && a.response.status == StatusOK && a.response.finalQuery.err.None? &&
       Lookup(a.response.finalQuery.params, "state") != "" {
      var state := Lookup(a.response.finalQuery.params, "state");
      IdentifierChain(env, state, Later(replies));
      ChainThen(env, 1, q, PartFour(env, state, Later(replies)), |Later(replies)|);
    } else {
      ChainStop(env, 1, q, PartThree(env, authorizeUrl, replies).outcome.error, |replies|);
    }
  }

  /**
   * A local login run sends its requests in the order partOne, partThree, partFour,
   * partFive, then the resume loop; every token request carries the run's own
   * verifier and none is sent in auth-for-code mode; no MFA POST is sent without an
   * MFA code; a grant is a `verifier|code` pair exactly in auth-for-code mode and
   * otherwise the answer to the last request, a token request; and each request
   * reads one reply, so the run ends by the reply after the last one supplied.
   */
  lemma LoginChain(env: Env, replies: seq<Exchange>)
    ensures var run := PartOne(env, replies);
      LoginOrder(Steps(run.sent)) && TokenRequestsCarryVerifier(env, run.sent) &&
      MfaOnlyWithCode(env, run.sent) && GrantFits(env, run) && |run.sent| <= |replies| + 1
  {
    var q := Request(Preauth, GET, env.apiPrefix + "/auth/preauth", map[], false);
    var a := Answer(replies);
    if a.Reply? && a.response.status == StatusOK && a.response.body.Success? && a.response.body.value.preauthCookie != "" {
      var cookie := a.response.body.value.preauthCookie;
      LoginPageChain(env, BuildAuthorizeUrl(env.pkce.challenge, cookie), Later(replies));
      ChainThen(env, 0, q, PartTwo(env, cookie, Later(replies)), |Later(replies)|);
    } else {
      ChainStop(env, 0, q, PartOne(env, replies).outcome.error, |replies|);
    }
  }

  /** The preauth cookie of the first reply, when it is a 200 with a decoded body. */
  function CookieOf(replies: seq<Exchange>): string
  {
    var a := Answer(replies);
    if a.Reply? && a.response.body.Success? then a.response.body.value.preauthCookie else ""
  }

  /** The `state` of the final URL of the first of `replies`. */
  function PageState(replies: seq<Exchange>): string
  {
    var a := Answer(replies);
    if a.Reply? then Lookup(a.response.finalQuery.params, "state") else ""
  }

  /**
   * partOne: the preauth GET; a 200 with a non-empty cookie goes on to the login page
   * with the URL built from it. Otherwise the run stops after the GET: a transport
   * error with "error fetch preauth code in", another status with "error request
   * preauth code", an undecodable body with the decoder's error, an empty cookie
   * with "get preauth cookie failed".
   */
  lemma PreauthStep(env: Env, replies: seq<Exchange>)
    ensures var run, q := PartOne(env, replies), Request(Preauth, GET, env.apiPrefix + "/auth/preauth", map[], false);
      var a := Answer(replies);
      if a.Reply? && a.response.status == StatusOK && CookieOf(replies) != "" then
        run == Then(q, PartThree(env, BuildAuthorizeUrl(env.pkce.challenge, CookieOf(replies)), Later(replies)))
      else
        run == Stop(q,
          if a.TransportError? then RequestFailed(Preauth, a.reason)
          else if a.response.status != StatusOK then PreauthRejected
          else if a.response.body.Failure? then DecodeFailed(a.response.body.error)
          else PreauthCookieMissing)
  {
  }

  /**
   * partThree: a URL `http.NewRequest` rejects ends the run with nothing sent.
   * Otherwise the GET goes out, and a 200 whose final URL has a `state` goes on to
   * the identifier step with that state. Else the run stops after the GET: a
   * transport error with "error requesting login url", another status with the same
   * text and Go's `<nil>`, an unparsable final query with the parser's error, a
   * missing state with "state parameter not found".
   */
  lemma LoginPageStep(env: Env, authorizeUrl: string, replies: seq<Exchange>)
    ensures var run, q := PartThree(env, authorizeUrl, replies), Request(LoginPage, GET, authorizeUrl, map[], true);
      var a, fault := Answer(replies), NewRequestFault(authorizeUrl);
      if fault.Some? then run == Abort(RequestBuildFailed(fault.value))
      else if a.Reply? && a.response.status == StatusOK && a.response.finalQuery.err.None? &&
         Lookup(a.response.finalQuery.params, "state") != "" then
        run == Then(q, PartFour(env, Lookup(a.response.finalQuery.params, "state"), Later(replies)))
      else
        run == Stop(q,
          if a.TransportError? then RequestFailed(LoginPage, a.reason)
          else if a.response.status != StatusOK then LoginPageRejected
          else if a.response.finalQuery.err.Some? then QueryParseFailed(a.response.finalQuery.err.value)
          else StateNotFound)
  {
  }

  /**
   * partFour: an identifier URL `http.NewRequest` rejects ends the run with nothing
   * sent. Otherwise the POST goes out; only a 302 goes on to the password step, with
   * the same state; a transport error stops with "error checking email: <reason>",
   * any other reply with "error checking email".
   */
  lemma IdentifierStep(env: Env, state: string, replies: seq<Exchange>)
    ensures var run := PartFour(env, state, replies);
      var q := Request(Identifier, POST, IdentifierUrl(state), IdentifierForm(env, state), false);
      var a, fault := Answer(replies), NewRequestFault(IdentifierUrl(state));
      if fault.Some? then run == Abort(RequestBuildFailed(fault.value))
      else if a.Reply? && a.response.status == StatusFound then run == Then(q, PartFive(env, state, Later(replies)))
      else run == Stop(q, if a.Reply? then EmailRejected else RequestFailed(Identifier, a.reason))
  {
  }

  /**
   * partFour sends the identifier POST exactly when `http.NewRequest` accepts its URL,
   * and a run that gets past it goes on as partFive with the later replies.
   */
  lemma IdentifierRequests(env: Env, st: string, r: seq<Exchange>)
    ensures var run := PartFour(env, st, r);
      run.sent != [] <==> NewRequestFault(IdentifierUrl(st)).None?
    ensures var run := PartFour(env, st, r);
      run.sent != [] ==> run.sent[0] == Request(Identifier, POST, IdentifierUrl(st), IdentifierForm(env, st), false)
    ensures var run := PartFour(env, st, r);
      |run.sent| > 1 ==>
        |r| >= 1 && r[0].Reply? && r[0].response.status == StatusFound &&
        run.sent[1..] == PartFive(env, st, r[1..]).sent && run.outcome == PartFive(env, st, r[1..]).outcome
  {
    IdentifierStep(env, st, r);
  }

  /**
   * partThree fetches the login page exactly when `http.NewRequest` accepts the URL,
   * and a run that gets past it goes on as partFour with the page's state.
   */
  lemma LoginPageRequests(env: Env, url: string, r: seq<Exchange>)
    ensures var run := PartThree(env, url, r);
      run.sent != [] <==> NewRequestFault(url).None?
    ensures var run := PartThree(env, url, r);
      run.sent != [] ==> run.sent[0] == Request(LoginPage, GET, url, map[], true)
    ensures var run, st := PartThree(env, url, r), PageState(r);
      |run.sent| > 1 ==>
        |r| >= 1 && r[0].Reply? && r[0].response.status == StatusOK && st != "" &&
        run.sent[1..] == PartFour(env, st, r[1..]).sent && run.outcome == PartFour(env, st, r[1..]).outcome
  {
    LoginPageStep(env, url, r);
  }

  /**
   * partOne sends the preauth GET to the gateway, and a run that gets past it goes
   * on as partThree with the authorize URL built from the challenge and the cookie
   * of a 200 reply.
   */
  lemma PreauthRequests(env: Env, replies: seq<Exchange>)
    ensures var run := PartOne(env, replies);
      run.sent != [] && run.sent[0] == Request(Preauth, GET, env.apiPrefix + "/auth/preauth", map[], false)
    ensures var run, url := PartOne(env, replies), BuildAuthorizeUrl(env.pkce.challenge, CookieOf(replies));
      |run.sent| > 1 ==>
        |replies| >= 1 && replies[0].Reply? && replies[0].response.status == StatusOK && CookieOf(replies) != "" &&
        run.sent[1..] == PartThree(env, url, replies[1..]).sent && run.outcome == PartThree(env, url, replies[1..]).outcome
  {
    PreauthStep(env, replies);
  }

  /**
   * The password POST is sent exactly when `http.NewRequest` accepts its URL, and
   * carries the state with the email and password; a run that gets past it goes on
   * exactly as partSix does with the `Location` of its reply and the replies after that.
   */
  lemma PasswordRequests(env: Env, st: string, replies: seq<Exchange>)
    ensures var run := PartFive(env, st, replies);
      run.sent != [] <==> NewRequestFault(PasswordUrl(st)).None?
    ensures var run := PartFive(env, st, replies);
      run.sent != [] ==>
      run.sent[0] == Request(Password, POST, PasswordUrl(st),
                             map["state" := st, "username" := env.email, "password" := env.password, "action" := "default"], false)
    ensures var run := PartFive(env, st, replies);
      |run.sent| > 1 ==>
        |replies| >= 1 && replies[0].Reply? && replies[0].response.status == StatusFound &&
        StartsWith(replies[0].response.location, ResumePrefix) &&
        var rest := PartSix(env, replies[0].response.location, replies[1..]);
        run.sent[1..] == rest.sent && run.outcome == rest.outcome
  {
    PasswordStep(env, st, replies);
  }
}
