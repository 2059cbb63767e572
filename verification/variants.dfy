/** Where the JavaScript and the C# implementations of the same token machine
    part ways: the response the expiry is taken from, and how the seconds
    left are made whole. */
module Variants {
  import opened Upstream
  import JsOAuth
  import CsOAuth

  /** A service whose answers do not depend on the client settings sent. */
  ghost predicate KeyBlind(svc: AuthService) {
    && (forall k1, k2, c :: svc.exchange(k1, c) == svc.exchange(k2, c))
    && (forall k1, k2, sc, t :: svc.refresh(k1, sc, t) == svc.refresh(k2, sc, t))
  }

  /** Redeeming the same code with the same public scope list, both
      implementations store the same three tokens, but JavaScript dates the
      expiry from the public response and C# from the internal one. */
  lemma TokensAgreeExpiryDiffers(s: JsOAuth.Session, cache: Keys, cfg: JsOAuth.Config, env: CsOAuth.Environment,
                                 svc: AuthService, code: string, nowMs: int, nowTicks: int)
    requires KeyBlind(svc)
    requires cfg.scopePublic == CsOAuth.ScopePublic
    requires JsOAuth.KeysUsed(cache, cfg.keys).Ok? && CsOAuth.ExchangeKeys(env).Ok?
    ensures
      var js := JsOAuth.SetCode(s, cache, cfg, svc, code, nowMs);
      var cs := CsOAuth.CreateFromCode(env, svc, code, nowTicks);
      && (js.result.Ok? <==> cs.result.Ok?)
      && (js.result.Ok? ==>
            var k := JsOAuth.KeysUsed(cache, cfg.keys).value;
            var i := svc.exchange(k, code).value;
            var p := svc.refresh(k, cfg.scopePublic, Some(i.refreshToken)).value;
            && js.session.internalToken == cs.result.value.tokenInternal == Some(i.accessToken)
            && js.session.publicToken == cs.result.value.tokenPublic == Some(p.accessToken)
            && js.session.refreshToken == cs.result.value.refreshToken == Some(p.refreshToken)
            && js.session.expiresAt == Some(nowMs + 1000 * p.expiresIn)
            && cs.result.value.expiresAt == nowTicks + CsOAuth.TicksPerSecond * i.expiresIn)
  {
  }

  /** For the same time left, JavaScript's rounded seconds are never below
      C#'s truncated ones and at most one above for a future expiry; for a
      past expiry they are at most one below and never above. */
  lemma RoundingVersusTruncation(ms: int)
    ensures
      var js := JsOAuth.RoundSeconds(ms);
      var cs := CsOAuth.TruncSeconds(10_000 * ms);
      && (ms >= 0 ==> cs <= js <= cs + 1)
      && (ms < 0 ==> cs - 1 <= js <= cs)
  {
  }

  /** With a second and a half left, JavaScript says two and C# says one; at
      minus one and seven tenths, JavaScript says minus two and C# minus one. */
  lemma RoundingExamples()
    ensures JsOAuth.RoundSeconds(1500) == 2 && CsOAuth.TruncSeconds(15_000_000) == 1
    ensures JsOAuth.RoundSeconds(-1700) == -2 && CsOAuth.TruncSeconds(-17_000_000) == -1
    ensures JsOAuth.RoundSeconds(-1500) == -1
  {
  }

  /** Ticks in one millisecond. */
  const TicksPerMillisecond := 10_000

  /** Given the same time left before expiry, each in its own unit, the
      JavaScript token read and the C# cookie read reach the authorization
      service in exactly the same cases: strictly after expiry, never at it. */
  lemma SameExpiryRule(s: JsOAuth.Session, cache: Keys, cfg: JsOAuth.Config, nowMs: int,
                       c: CsOAuth.Credentials, env: CsOAuth.Environment, nowTicks: int, svc: AuthService)
    requires s.expiresAt.Some?
    requires c.expiresAt - nowTicks == TicksPerMillisecond * (s.expiresAt.value - nowMs)
    requires CsOAuth.RefreshKeys(env).Ok?
    ensures JsOAuth.GetPublicToken(s, cache, cfg, svc, nowMs).calls != []
        <==> CsOAuth.FromSession(Some(map[CsOAuth.ForgeCookie := c]), env, svc, nowTicks).calls != []
  {
  }

  /** A stub service answering INT1/REF1/3600 for the code ABC123 and
      PUB1/REF2/1800 for a refresh of REF1, whatever the settings and scopes. */
  function StubService(): AuthService {
    AuthService(
      (k: Keys, code: string) =>
        if code == "ABC123" then Ok(Grant("INT1", "REF1", 3600)) else Fail(Error("invalid_grant")),
      (k: Keys, scopes: seq<string>, t: Option<string>) =>
        if t == Some("REF1") then Ok(Grant("PUB1", "REF2", 1800)) else Fail(Error("invalid_grant")))
  }

  /** Redeeming ABC123 against the stub: JavaScript stores an expiry 1800 s
      ahead, C# one 3600 s ahead, with the same three tokens. */
  lemma ExchangeScenario(nowMs: int, nowTicks: int)
    ensures
      var keys := Keys(Some("id"), Some("secret"), Some("https://example.com/callback"));
      var cfg := JsOAuth.Config(["data:read"], ["viewables:read"], Ok(keys));
      var js := JsOAuth.SetCode(JsOAuth.EmptySession, JsOAuth.EmptyCache, cfg, StubService(), "ABC123", nowMs);
      && js.result.Ok?
      && js.session == JsOAuth.Session(Some("INT1"), Some("PUB1"), Some("REF2"), Some(nowMs + 1_800_000))
    ensures
      var env := CsOAuth.Environment(
        map["ASPNETCORE_ENVIRONMENT" := "Development", "FORGE_CLIENT_ID" := "id",
            "FORGE_CLIENT_SECRET" := "secret", "FORGE_CALLBACK_URL" := "https://example.com/callback"],
        (key: Option<string>) => Fail(Error("no parameter store")));
      var cs := CsOAuth.CreateFromCode(env, StubService(), "ABC123", nowTicks);
      cs.result == Ok(CsOAuth.Credentials(Some("INT1"), Some("PUB1"), Some("REF2"), nowTicks + 36_000_000_000))
  {
  }
}
