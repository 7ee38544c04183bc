/**
 * partTwo of auth/auth.go: the `/authorize` URL is a fixed template in which the
 * `code_challenge` value and the `sample_preauth_cookie` placeholder are replaced.
 *
 * The template is written as the concatenation of short pieces so that facts about
 * its characters can be checked piece by piece; the pieces spell out exactly the
 * string of auth/auth.go:173-176.
 */
module AuthorizeUrl {
  import opened Wrappers
  import opened Text
  import opened Protocol
  import opened RequestUrl

  const AuthorizePath := "/authorize?client_id="
  const AudienceParam := "&audience=https%3A%2F%2F" + "api.openai.com%2Fv1"
  const RedirectParam := "&redirect_uri=" + "com.openai.chat%3A%2F%2F" + "auth0.openai.com%2Fios%2F" + "com.openai.chat%2Fcallback"
  const ScopeParam :=
    "&scope=openid%20" + "email%20profile%20" + "offline_access%20" + "model.request%20" + "model.read%20" + "organization.read%20offline"
  const ResponseTypeParam := "&response_type=code&"

  /** Everything before `code_challenge=`: origin, path, client id, audience, redirect URI, scope and response type. */
  const TemplateBase := AuthHost + AuthorizePath + ClientId + AudienceParam + RedirectParam + ScopeParam + ResponseTypeParam

  const ChallengeName := "code_challenge"
  const ChallengeKey := ChallengeName + "="

  /** The challenge value the template was written with. */
  const SampleChallenge := "w6n3Ix420Xhhu-Q5-mOOE" + "yuPZmAsJHUbBpO8Ub7xBCY"

  /** Everything between the challenge value and the cookie placeholder. */
  const TemplateSuffix := "&code_challenge_method=S256" + "&prompt=login&preauth_cookie="

  const CookiePlaceholder := "sample_preauth_cookie"

  /** The template URL. */
  const AuthorizeTemplate := TemplateBase + ChallengeKey + SampleChallenge + TemplateSuffix + CookiePlaceholder

  /** The number of leading characters of `s` that are not `&`: how far `[^&]+` reaches. */
  function ValueLength(s: string): (n: nat)
    ensures n <= |s|
    ensures forall k | 0 <= k < n :: s[k] != '&'
    ensures n == |s| || s[n] == '&'
  {
    if s == [] || s[0] == '&' then 0 else 1 + ValueLength(s[1..])
  }

  /** A match of the regular expression `code_challenge=[^&]+` starts at the head of `s`. */
  predicate ChallengeMatchAtHead(s: string)
  {
    StartsWith(s, ChallengeKey) && |s| > |ChallengeKey| && s[|ChallengeKey|] != '&'
  }

  /**
   * `regexp.MustCompile("code_challenge=[^&]+").ReplaceAllString(s, rep)`: matches are
   * found left to right, each one as long as possible, and replaced by `rep`.
   */
  function ReplaceChallenge(s: string, rep: string): string
    decreases |s|
  {
    if s == [] then []
    else if ChallengeMatchAtHead(s) then
      var n := |ChallengeKey| + ValueLength(s[|ChallengeKey|..]);
      rep + ReplaceChallenge(s[n..], rep)
    else [s[0]] + ReplaceChallenge(s[1..], rep)
  }

  /** The URL partTwo hands to partThree for the generated challenge and the preauth cookie. */
  function BuildAuthorizeUrl(challenge: string, preauthCookie: string): string
  {
    ReplaceAll(ReplaceChallenge(AuthorizeTemplate, ChallengeKey + challenge), CookiePlaceholder, preauthCookie)
  }

  // ---------------------------------------------------------------------------
  // The scan of ReplaceChallenge

  /** No match starts at any of the first `n` positions of `s`. */
  predicate NoChallengeBefore(s: string, n: int)
  {
    forall k | 0 <= k < n && k < |s| :: !ChallengeMatchAtHead(s[k..])
  }

  /** A match needs `=` fourteen characters on and `g` twelve characters on. */
  lemma ChallengeMatchShape(s: string, k: int)
    requires 0 <= k < |s| && ChallengeMatchAtHead(s[k..])
    ensures k + 14 < |s| && s[k + 14] == '=' && s[k + 12] == 'g'
  {
    assert s[k..][..|ChallengeKey|] == ChallengeKey;
    assert ChallengeKey[14] == '=' && ChallengeKey[12] == 'g';
    assert s[k..][14] == s[k + 14] && s[k..][12] == s[k + 12];
  }

  /** A stretch in which no match starts is copied unchanged. */
  lemma {:induction false} ScanSkip(a: string, x: string, rep: string)
    requires NoChallengeBefore(a + x, |a|)
    ensures ReplaceChallenge(a + x, rep) == a + ReplaceChallenge(x, rep)
    decreases |a|
  {
    var s := a + x;
    if a == [] {
      assert s == x;
    } else {
      assert s[0..] == s;
      assert s[1..] == a[1..] + x;
      forall k | 0 <= k < |a[1..]| && k < |s[1..]| ensures !ChallengeMatchAtHead(s[1..][k..]) {
        assert s[1..][k..] == s[k + 1..];
      }
      ScanSkip(a[1..], x, rep);
    }
  }

  /** A match `code_challenge=v` whose value stops at `&` or at the end is replaced as a whole. */
  lemma ScanMatch(v: string, x: string, rep: string)
    requires v != [] && forall k | 0 <= k < |v| :: v[k] != '&'
    requires x == [] || x[0] == '&'
    ensures ReplaceChallenge(ChallengeKey + v + x, rep) == rep + ReplaceChallenge(x, rep)
  {
    var s := ChallengeKey + v + x;
    assert s[..|ChallengeKey|] == ChallengeKey;
    assert s[|ChallengeKey|..] == v + x;
    ValueLengthOf(v, x);
    assert s[|ChallengeKey| + |v|..] == x;
  }

  lemma {:induction false} ValueLengthOf(v: string, x: string)
    requires forall k | 0 <= k < |v| :: v[k] != '&'
    requires x == [] || x[0] == '&'
    ensures ValueLength(v + x) == |v|
    decreases |v|
  {
    if v == [] {
      assert v + x == x;
    } else {
      assert (v + x)[1..] == v[1..] + x;
      ValueLengthOf(v[1..], x);
    }
  }

  // ---------------------------------------------------------------------------
  // Character facts about the template

  /** Every `=` has at least two characters before it, and the one two back is not `g`. */
  predicate NoEqAfterG(s: string)
  {
    forall p | 0 <= p < |s| && s[p] == '=' :: p >= 2 && s[p - 2] != 'g'
  }

  /** Every `s` is followed by a character other than `a`. */
  predicate NoSa(s: string)
  {
    forall p | 0 <= p < |s| && s[p] == 's' :: p + 1 < |s| && s[p + 1] != 'a'
  }

  /**
   * Neither pattern can start here: a match of `code_challenge=` needs a `g` two
   * before its `=`, and `sample_preauth_cookie` starts with `sa`.
   */
  predicate Clean(s: string)
  {
    NoEqAfterG(s) && NoSa(s)
  }

  lemma CleanConcat(a: string, b: string)
    requires Clean(a) && Clean(b)
    ensures Clean(a + b)
  {
    var s := a + b;
    forall p | 0 <= p < |s| && s[p] == '=' ensures p >= 2 && s[p - 2] != 'g' {
      if p >= |a| {
        assert b[p - |a|] == '=';
        assert s[p - 2] == b[p - |a| - 2];
      }
    }
    forall p | 0 <= p < |s| && s[p] == 's' ensures p + 1 < |s| && s[p + 1] != 'a' {
      if p >= |a| {
        assert b[p - |a|] == 's';
      }
    }
  }

  lemma HostClean() ensures Clean(AuthHost) {}
  lemma PathClean() ensures Clean(AuthorizePath) {}
  lemma ClientIdClean() ensures Clean("pdlLIX2Y72MIl2rh") && Clean("LhTE9VV9bN905kBh") {}
  lemma AudienceHeadClean() ensures Clean("&audience=https%3A%2F%2F") {}
  lemma AudienceTailClean() ensures Clean("api.openai.com%2Fv1") {}
  lemma RedirectKeyClean() ensures Clean("&redirect_uri=") {}
  lemma RedirectSchemeClean() ensures Clean("com.openai.chat%3A%2F%2F") {}
  lemma RedirectHostClean() ensures Clean("auth0.openai.com%2Fios%2F") {}
  lemma RedirectPathClean() ensures Clean("com.openai.chat%2Fcallback") {}
  lemma ScopeKeyClean() ensures Clean("&scope=openid%20") {}
  lemma ScopeEmailClean() ensures Clean("email%20profile%20") {}
  lemma ScopeOfflineClean() ensures Clean("offline_access%20") {}
  lemma ScopeRequestClean() ensures Clean("model.request%20") {}
  lemma ScopeReadClean() ensures Clean("model.read%20") {}
  lemma ScopeOrganizationClean() ensures Clean("organization.read%20offline") {}
  lemma ResponseTypeClean() ensures Clean(ResponseTypeParam) {}

  lemma AudienceClean() ensures Clean(AudienceParam)
  {
    AudienceHeadClean(); AudienceTailClean();
    CleanConcat("&audience=https%3A%2F%2F", "api.openai.com%2Fv1");
  }

  lemma RedirectClean() ensures Clean(RedirectParam)
  {
    var k, a, b, c := "&redirect_uri=", "com.openai.chat%3A%2F%2F", "auth0.openai.com%2Fios%2F", "com.openai.chat%2Fcallback";
    RedirectKeyClean(); RedirectSchemeClean(); RedirectHostClean(); RedirectPathClean();
    CleanConcat(k, a);
    CleanConcat(k + a, b);
    CleanConcat(k + a + b, c);
  }

  lemma ScopeClean() ensures Clean(ScopeParam)
  {
    var k, a, b, c, d, e := "&scope=openid%20", "email%20profile%20", "offline_access%20", "model.request%20",
      "model.read%20", "organization.read%20offline";
    ScopeKeyClean(); ScopeEmailClean(); ScopeOfflineClean(); ScopeRequestClean(); ScopeReadClean(); ScopeOrganizationClean();
    CleanConcat(k, a);
    CleanConcat(k + a, b);
    CleanConcat(k + a + b, c);
    CleanConcat(k + a + b + c, d);
    CleanConcat(k + a + b + c + d, e);
  }

  /** The whole base is clean, and stays so with `code_challenge` after it. */
  lemma BaseClean()
    ensures Clean(TemplateBase) && Clean(TemplateBase + ChallengeName)
  {
    HostClean(); PathClean(); ClientIdClean(); AudienceClean(); RedirectClean(); ScopeClean(); ResponseTypeClean();
    CleanConcat("pdlLIX2Y72MIl2rh", "LhTE9VV9bN905kBh");
    CleanConcat(AuthHost, AuthorizePath);
    CleanConcat(AuthHost + AuthorizePath, ClientId);
    CleanConcat(AuthHost + AuthorizePath + ClientId, AudienceParam);
    CleanConcat(AuthHost + AuthorizePath + ClientId + AudienceParam, RedirectParam);
    CleanConcat(AuthHost + AuthorizePath + ClientId + AudienceParam + RedirectParam, ScopeParam);
    CleanConcat(AuthHost + AuthorizePath + ClientId + AudienceParam + RedirectParam + ScopeParam, ResponseTypeParam);
    assert Clean(ChallengeName);
    CleanConcat(TemplateBase, ChallengeName);
  }

  lemma SuffixHeadFacts() ensures NoEqAfterG("&code_challenge_method=S256") && Lacks("&code_challenge_method=S256", 's') {}
  lemma SuffixTailFacts() ensures NoEqAfterG("&prompt=login&preauth_cookie=") && Lacks("&prompt=login&preauth_cookie=", 's') {}
  lemma PlaceholderFacts()
    ensures NoEqAfterG(CookiePlaceholder) && Lacks(CookiePlaceholder, '&')
    ensures |CookiePlaceholder| >= 2 && CookiePlaceholder[0] == 's' && CookiePlaceholder[1] == 'a'
  {}

  /** After the challenge value: no `=` sits two after a `g`, and there is no `s` before the placeholder. */
  lemma SuffixFacts()
    ensures NoEqAfterG(TemplateSuffix + CookiePlaceholder)
    ensures Lacks(TemplateSuffix, 's')
  {
    SuffixHeadFacts(); SuffixTailFacts(); PlaceholderFacts();
    var c0, c1 := "&code_challenge_method=S256", "&prompt=login&preauth_cookie=";
    assert NoSa(c0) && NoSa(c1) && NoSa(CookiePlaceholder[..0]);
    CleanConcat(c0, c1);
    forall p | 0 <= p < |TemplateSuffix + CookiePlaceholder| && (TemplateSuffix + CookiePlaceholder)[p] == '='
      ensures p >= 2 && (TemplateSuffix + CookiePlaceholder)[p - 2] != 'g'
    {
      if p >= |TemplateSuffix| {
        assert CookiePlaceholder[p - |TemplateSuffix|] == '=';
      }
    }
  }

  /** A string in which `s` is never followed by `a` does not contain a pattern that starts with `sa`. */
  lemma SaAbsent(s: string, pat: string)
    requires |pat| >= 2 && pat[0] == 's' && pat[1] == 'a' && NoSa(s)
    ensures forall i :: !OccursAt(s, pat, i)
  {
    forall i ensures !OccursAt(s, pat, i) {
      if 0 <= i && i + |pat| <= |s| {
        assert s[i..i + |pat|][0] == s[i];
        assert s[i..i + |pat|][1] == s[i + 1];
      }
    }
  }

  // ---------------------------------------------------------------------------
  // What partTwo builds

  /** No match starts in the first `n` positions of `t` when `t` begins with a stretch `u` in which no `=` sits two after a `g`. */
  lemma NoMatchInClean(t: string, u: string, n: int)
    requires |u| <= |t| && t[..|u|] == u && NoEqAfterG(u)
    requires 0 <= n && (n + 14 <= |u| || (n <= |u| && |u| == |t|))
    ensures NoChallengeBefore(t, n)
  {
    forall k | 0 <= k < n && k < |t| ensures !ChallengeMatchAtHead(t[k..]) {
      if k + 14 < |t| {
        assert t[k + 14] == u[k + 14] && t[k + 12] == u[k + 12];
      }
      if ChallengeMatchAtHead(t[k..]) {
        ChallengeMatchShape(t, k);
      }
    }
  }

  /** The scan over any template of the same layout: base, challenge parameter, suffix, placeholder. */
  lemma ScanLayout(base: string, sample: string, suffix: string, placeholder: string, rep: string)
    requires NoEqAfterG(base + ChallengeName)
    requires sample != [] && Lacks(sample, '&')
    requires suffix != [] && suffix[0] == '&' && NoEqAfterG(suffix + placeholder)
    ensures ReplaceChallenge(base + ChallengeKey + sample + suffix + placeholder, rep) == base + rep + suffix + placeholder
  {
    var tail := suffix + placeholder;
    var x := ChallengeKey + sample + tail;
    assert base + ChallengeKey + sample + suffix + placeholder == base + x;
    HeadScan(base, x, rep);
    ScanMatch(sample, tail, rep);
    TailScan(tail, rep);
    assert base + (rep + tail) == base + rep + suffix + placeholder;
  }

  /** A stretch in front of `code_challenge=` with no `=` two after a `g` is copied unchanged. */
  lemma HeadScan(base: string, x: string, rep: string)
    requires NoEqAfterG(base + ChallengeName) && StartsWith(x, ChallengeKey)
    ensures ReplaceChallenge(base + x, rep) == base + ReplaceChallenge(x, rep)
  {
    var t, u := base + x, base + ChallengeName;
    assert t[..|u|] == u by {
      assert x[..|ChallengeName|] == ChallengeKey[..|ChallengeName|] == ChallengeName;
    }
    NoMatchInClean(t, u, |base|);
    ScanSkip(base, x, rep);
  }

  /** A string with no `=` two after a `g` holds no match and is copied unchanged. */
  lemma TailScan(tail: string, rep: string)
    requires NoEqAfterG(tail)
    ensures ReplaceChallenge(tail, rep) == tail
  {
    assert tail + [] == tail;
    NoMatchInClean(tail + [], tail, |tail|);
    ScanSkip(tail, [], rep);
  }

  /** The only match of `code_challenge=[^&]+` in the template is its challenge parameter, value and all. */
  lemma TemplateScan(rep: string)
    ensures ReplaceChallenge(AuthorizeTemplate, rep) == TemplateBase + rep + TemplateSuffix + CookiePlaceholder
  {
    BaseClean();
    SuffixFacts();
    SampleFacts();
    ScanLayout(TemplateBase, SampleChallenge, TemplateSuffix, CookiePlaceholder, rep);
  }

  lemma SampleFacts() ensures Lacks(SampleChallenge, '&') && NoSa(SampleChallenge) && TemplateSuffix[0] == '&'
  {
    var a, b := "w6n3Ix420Xhhu-Q5-mOOE", "yuPZmAsJHUbBpO8Ub7xBCY";
    SamplePieceFacts();
    CleanConcat(a, b);
    LacksConcat(a, b, '&');
  }

  lemma SamplePieceFacts()
    ensures Clean("w6n3Ix420Xhhu-Q5-mOOE") && Lacks("w6n3Ix420Xhhu-Q5-mOOE", '&')
    ensures Clean("yuPZmAsJHUbBpO8Ub7xBCY") && Lacks("yuPZmAsJHUbBpO8Ub7xBCY", '&')
  {}

  lemma LacksConcat(a: string, b: string, c: char)
    requires Lacks(a, c) && Lacks(b, c)
    ensures Lacks(a + b, c)
  {
    forall p | 0 <= p < |a + b| ensures (a + b)[p] != c {
      if p >= |a| {
        assert (a + b)[p] == b[p - |a|];
      }
    }
  }

  /** From the challenge parameter on, only the placeholder at the end and any copy inside the challenge are replaced. */
  lemma PlaceholderAfterBase(suffix: string, challenge: string, p: string, c: string)
    requires |p| >= 2 && p[0] == 's' && Lacks(p, '&')
    requires suffix != [] && suffix[0] == '&' && Lacks(suffix, 's')
    ensures ReplaceAll(ChallengeKey + (challenge + (suffix + p)), p, c) ==
      ChallengeKey + ReplaceAll(challenge, p, c) + suffix + c
  {
    KeyLacksS();
    var rest := challenge + (suffix + p);
    ReplaceAllAfterPlain(ChallengeKey, rest, p, c);
    NoStraddleByNext(challenge, suffix + p, p);
    ReplaceAllConcat(challenge, suffix + p, p, c);
    ReplaceAllAfterPlain(suffix, p, p, c);
    ReplaceAllWhole(p, c);
    var rc := ReplaceAll(challenge, p, c);
    assert ReplaceAll(rest, p, c) == rc + (suffix + c);
    assert ChallengeKey + (rc + (suffix + c)) == ChallengeKey + rc + suffix + c;
  }

  lemma KeyLacksS() ensures Lacks(ChallengeKey, 's') {}

  /** The placeholder replacement over the whole layout, once the challenge parameter holds `challenge`. */
  lemma PlaceholderLayout(base: string, suffix: string, challenge: string, p: string, c: string)
    requires |p| >= 2 && p[0] == 's' && p[1] == 'a' && Lacks(p, '&')
    requires base != [] && base[|base| - 1] == '&' && NoSa(base)
    requires suffix != [] && suffix[0] == '&' && Lacks(suffix, 's')
    ensures ReplaceAll(base + (ChallengeKey + challenge) + suffix + p, p, c) ==
      base + ChallengeKey + ReplaceAll(challenge, p, c) + suffix + c
  {
    var r2 := ChallengeKey + (challenge + (suffix + p));
    assert base + (ChallengeKey + challenge) + suffix + p == base + r2;
    NoStraddleByLast(base, r2, p);
    ReplaceAllConcat(base, r2, p, c);
    SaAbsent(base, p);
    ReplaceAllAbsent(base, p, c);
    PlaceholderAfterBase(suffix, challenge, p, c);
  }

  /**
   * partTwo's URL is the template with the challenge parameter set to the generated
   * challenge and the placeholder replaced by the preauth cookie; the placeholder
   * text, should it occur inside the challenge, is replaced there as well.
   */
  lemma BuildShape(challenge: string, preauthCookie: string)
    ensures BuildAuthorizeUrl(challenge, preauthCookie) ==
      TemplateBase + ChallengeKey + ReplaceAll(challenge, CookiePlaceholder, preauthCookie) + TemplateSuffix + preauthCookie
  {
    TemplateScan(ChallengeKey + challenge);
    BaseClean();
    SuffixFacts();
    SampleFacts();
    PlaceholderFacts();
    BaseEndsWithAmp();
    PlaceholderLayout(TemplateBase, TemplateSuffix, challenge, CookiePlaceholder, preauthCookie);
  }

  lemma BaseEndsWithAmp() ensures TemplateBase != [] && TemplateBase[|TemplateBase| - 1] == '&' {}

  /** For a challenge that does not contain the placeholder, the URL carries exactly the challenge and the cookie. */
  lemma BuildCarries(challenge: string, preauthCookie: string)
    requires forall i :: !OccursAt(challenge, CookiePlaceholder, i)
    ensures BuildAuthorizeUrl(challenge, preauthCookie) ==
      TemplateBase + ChallengeKey + challenge + TemplateSuffix + preauthCookie
  {
    BuildShape(challenge, preauthCookie);
    ReplaceAllAbsent(challenge, CookiePlaceholder, preauthCookie);
  }

  // ---------------------------------------------------------------------------
  // The template is plain text

  lemma HostPathPlain()
    ensures Plain(AuthHost) && Plain(AuthorizePath) && Plain("pdlLIX2Y72MIl2rh") && Plain("LhTE9VV9bN905kBh")
  {}
  lemma AudiencePlain()
    ensures Plain("&audience=https%3A%2F%2F") && Plain("api.openai.com%2Fv1")
  {}
  lemma RedirectHeadPlain()
    ensures Plain("&redirect_uri=") && Plain("com.openai.chat%3A%2F%2F")
  {}
  lemma RedirectTailPlain()
    ensures Plain("auth0.openai.com%2Fios%2F") && Plain("com.openai.chat%2Fcallback")
  {}
  lemma ScopeHeadPlain()
    ensures Plain("&scope=openid%20") && Plain("email%20profile%20") && Plain("offline_access%20")
  {}
  lemma ScopeTailPlain()
    ensures Plain("model.request%20") && Plain("model.read%20") && Plain("organization.read%20offline")
  {}
  lemma KeyPlain()
    ensures Plain(ResponseTypeParam) && Plain(ChallengeName) && Plain("=")
  {}
  lemma SuffixPlain()
    ensures Plain("&code_challenge_method=S256")
  {}
  lemma PromptPlain()
    ensures Plain("&prompt=login&preauth_cookie=")
  {}

  lemma ParamsPlain()
    ensures Plain(AudienceParam) && Plain(RedirectParam) && Plain(ScopeParam)
  {
    AudiencePlain(); RedirectHeadPlain(); RedirectTailPlain(); ScopeHeadPlain(); ScopeTailPlain();
    PlainConcat("&audience=https%3A%2F%2F", "api.openai.com%2Fv1");
    var k, a, b, c := "&redirect_uri=", "com.openai.chat%3A%2F%2F", "auth0.openai.com%2Fios%2F", "com.openai.chat%2Fcallback";
    PlainConcat(k, a); PlainConcat(k + a, b); PlainConcat(k + a + b, c);
    var sk, s1, s2, s3, s4, s5 := "&scope=openid%20", "email%20profile%20", "offline_access%20", "model.request%20",
      "model.read%20", "organization.read%20offline";
    PlainConcat(sk, s1); PlainConcat(sk + s1, s2); PlainConcat(sk + s1 + s2, s3);
    PlainConcat(sk + s1 + s2 + s3, s4); PlainConcat(sk + s1 + s2 + s3 + s4, s5);
  }

  /** The fixed text before the challenge value, and the fixed text after it, are plain. */
  lemma TemplatePlain()
    ensures Plain(TemplateBase + ChallengeKey) && Plain(TemplateSuffix)
  {
    HostPathPlain(); ParamsPlain(); KeyPlain(); SuffixPlain(); PromptPlain();
    PlainConcat(ChallengeName, "=");
    PlainConcat("pdlLIX2Y72MIl2rh", "LhTE9VV9bN905kBh");
    PlainConcat(AuthHost, AuthorizePath);
    PlainConcat(AuthHost + AuthorizePath, ClientId);
    PlainConcat(AuthHost + AuthorizePath + ClientId, AudienceParam);
    PlainConcat(AuthHost + AuthorizePath + ClientId + AudienceParam, RedirectParam);
    PlainConcat(AuthHost + AuthorizePath + ClientId + AudienceParam + RedirectParam, ScopeParam);
    PlainConcat(AuthHost + AuthorizePath + ClientId + AudienceParam + RedirectParam + ScopeParam, ResponseTypeParam);
    PlainConcat(TemplateBase, ChallengeKey);
    PlainConcat("&code_challenge_method=S256", "&prompt=login&preauth_cookie=");
  }

  /**
   * A challenge and a preauth cookie without control characters and without `#`
   * give an authorize URL that `http.NewRequest` accepts.
   */
  lemma BuildAccepted(challenge: string, preauthCookie: string)
    requires Plain(challenge) && Plain(preauthCookie)
    ensures NewRequestFault(BuildAuthorizeUrl(challenge, preauthCookie)) == None
  {
    BuildShape(challenge, preauthCookie);
    TemplatePlain();
    var head, middle := TemplateBase + ChallengeKey, ReplaceAll(challenge, CookiePlaceholder, preauthCookie);
    ReplaceAllPlain(challenge, CookiePlaceholder, preauthCookie);
    PlainConcat(head, middle);
    PlainConcat(head + middle, TemplateSuffix);
    PlainConcat(head + middle + TemplateSuffix, preauthCookie);
    PlainAccepted(head + middle + TemplateSuffix + preauthCookie);
  }

  /** Putting back the template's own challenge and placeholder gives the template again. */
  lemma BuildSampleIsTemplate()
    ensures BuildAuthorizeUrl(SampleChallenge, CookiePlaceholder) == AuthorizeTemplate
  {
    SampleFacts();
    PlaceholderFacts();
    SaAbsent(SampleChallenge, CookiePlaceholder);
    BuildCarries(SampleChallenge, CookiePlaceholder);
  }
}
