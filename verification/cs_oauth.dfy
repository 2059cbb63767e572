/** The C# `Credentials` class and the token endpoints of `OAuthController`
    (Controllers/OAuthController.cs): the same two-token machine as the
    JavaScript one, persisted in the `ForgeApp` cookie. Time is an integer
    number of `DateTime` ticks (ten million per second). */
module CsOAuth {
  import opened Upstream

  const TicksPerSecond := 10_000_000

  /** The cookie that carries the serialized credentials. */
  const ForgeCookie := "ForgeApp"

  /** `(int)HttpStatusCode.Unauthorized`, and the status of a normal answer. */
  const StatusUnauthorized := 401
  const StatusOk := 200

  /** The wire names of the `Scope` values the controller asks for. */
  const DataRead := "data:read"
  const DataCreate := "data:create"
  const DataWrite := "data:write"
  const ViewablesRead := "viewables:read"

  const ScopeInternal := [DataRead, DataCreate, DataWrite, ViewablesRead]
  const ScopePublic := [ViewablesRead]

  /** The four properties of `Credentials`. The strings may be null after
      deserialization; `ExpiresAt` is a `DateTime`, so never null. */
  datatype Credentials = Credentials(
    tokenInternal: Option<string>,
    tokenPublic: Option<string>,
    refreshToken: Option<string>,
    expiresAt: int)

  /** The process environment, and the Parameter Store lookup the
      "Production" branch performs (which may throw). */
  datatype Environment = Environment(vars: map<string, string>, ssm: Option<string> -> Result<string>)

  /** `Environment.GetEnvironmentVariable(key)`: null when unset. */
  function Lookup(vars: map<string, string>, key: string): Option<string> {
    if key in vars then Some(vars[key]) else None
  }

  /** `GetAppSetting(key)`: in "Development" the variable itself, in
      "Production" the Parameter Store value the variable names, otherwise "". */
  function GetAppSetting(env: Environment, key: string): (r: Result<Option<string>>)
    ensures r.Fail? ==> Lookup(env.vars, "ASPNETCORE_ENVIRONMENT") == Some("Production")
    ensures Lookup(env.vars, "ASPNETCORE_ENVIRONMENT") == Some("Development") ==> r == Ok(Lookup(env.vars, key))
    ensures Lookup(env.vars, "ASPNETCORE_ENVIRONMENT") == Some("Production") ==>
      (r.Ok? <==> env.ssm(Lookup(env.vars, key)).Ok?) &&
      (r.Ok? ==> r.value == Some(env.ssm(Lookup(env.vars, key)).value))
    ensures Lookup(env.vars, "ASPNETCORE_ENVIRONMENT") !in {Some("Development"), Some("Production")} ==> r == Ok(Some(""))
  {
    var environment := Lookup(env.vars, "ASPNETCORE_ENVIRONMENT");
    if environment == Some("Development") then Ok(Lookup(env.vars, key))
    else if environment == Some("Production") then
      var ssmKey := Lookup(env.vars, key);
      match env.ssm(ssmKey)
      case Fail(e) => Fail(e)
      case Ok(v) => Ok(Some(v))
    else Ok(Some(""))
  }

  /** The client id, secret and callback URL passed to the code exchange.
      An action reads its settings once; the program reads them again before
      each outside call. */
  function ExchangeKeys(env: Environment): (r: Result<Keys>)
    ensures r.Ok? <==>
      && GetAppSetting(env, "FORGE_CLIENT_ID").Ok?
      && GetAppSetting(env, "FORGE_CLIENT_SECRET").Ok?
      && GetAppSetting(env, "FORGE_CALLBACK_URL").Ok?
    ensures r.Ok? ==>
      && r.value.clientId == GetAppSetting(env, "FORGE_CLIENT_ID").value
      && r.value.clientSecret == GetAppSetting(env, "FORGE_CLIENT_SECRET").value
      && r.value.callbackUrl == GetAppSetting(env, "FORGE_CALLBACK_URL").value
    ensures r.Fail? ==> Lookup(env.vars, "ASPNETCORE_ENVIRONMENT") == Some("Production")
  {
    var id :- GetAppSetting(env, "FORGE_CLIENT_ID");
    var secret :- GetAppSetting(env, "FORGE_CLIENT_SECRET");
    var callback :- GetAppSetting(env, "FORGE_CALLBACK_URL");
    Ok(Keys(id, secret, callback))
  }

  /** The client id and secret passed to a refresh; no callback URL is sent. */
  function RefreshKeys(env: Environment): (r: Result<Keys>)
    ensures r.Ok? <==> GetAppSetting(env, "FORGE_CLIENT_ID").Ok? && GetAppSetting(env, "FORGE_CLIENT_SECRET").Ok?
    ensures r.Ok? ==> r.value.callbackUrl.None?
    ensures ExchangeKeys(env).Ok? ==>
      r == Ok(Keys(ExchangeKeys(env).value.clientId, ExchangeKeys(env).value.clientSecret, None))
  {
    var id :- GetAppSetting(env, "FORGE_CLIENT_ID");
    var secret :- GetAppSetting(env, "FORGE_CLIENT_SECRET");
    Ok(Keys(id, secret, None))
  }

  /** One `Set-Cookie` effect on the response. */
  datatype CookieOp = Append(name: string, value: Credentials) | Delete(name: string)

  /** The cookie effects, the outside calls and the outcome of an action. */
  datatype CsStep<+T> = CsStep(cookieOps: seq<CookieOp>, calls: seq<Call>, result: Result<T>)

  /** `CreateFromCodeAsync(code)`: redeem the code, derive the public token by
      refreshing the new internal refresh token under `ViewablesRead`, and
      store the credentials in the cookie. The expiry comes from the
      internal response. */
  function CreateFromCode(env: Environment, svc: AuthService, code: string, now: int): (r: CsStep<Credentials>)
    ensures r.result.Fail? ==> r.cookieOps == []
    ensures r.result.Ok? ==> r.cookieOps == [Append(ForgeCookie, r.result.value)]
    ensures ExchangeKeys(env).Fail? ==> r.result.Fail? && r.calls == []
    ensures ExchangeKeys(env).Ok? ==>
      var k := ExchangeKeys(env).value;
      var rk := RefreshKeys(env).value;
      && RefreshKeys(env).Ok?
      && match svc.exchange(k, code)
         case Fail(e) => r.result == Fail(e) && r.calls == [Exchange(k, code)]
         case Ok(i) =>
           && r.calls == [Exchange(k, code), Renew(rk, ScopePublic, Some(i.refreshToken))]
           && match svc.refresh(rk, ScopePublic, Some(i.refreshToken))
              case Fail(e) => r.result == Fail(e)
              case Ok(p) =>
                r.result == Ok(Credentials(Some(i.accessToken), Some(p.accessToken), Some(p.refreshToken),
                                           now + TicksPerSecond * i.expiresIn))
  {
    match ExchangeKeys(env)
    case Fail(e) => CsStep([], [], Fail(e))
    case Ok(k) =>
      var rk := Keys(k.clientId, k.clientSecret, None);
      var first := Exchange(k, code);
      match svc.exchange(k, code)
      case Fail(e) => CsStep([], [first], Fail(e))
      case Ok(i) =>
        var t := Some(i.refreshToken);
        var calls := [first, Renew(rk, ScopePublic, t)];
        match svc.refresh(rk, ScopePublic, t)
        case Fail(e) => CsStep([], calls, Fail(e))
        case Ok(p) =>
          var c := Credentials(Some(i.accessToken), Some(p.accessToken), Some(p.refreshToken),
                               now + TicksPerSecond * i.expiresIn);
          CsStep([Append(ForgeCookie, c)], calls, Ok(c))
  }

  /** The credentials `RefreshAsync` leaves, the calls it made, and whether it threw. */
  datatype Renewal = Renewal(credentials: Credentials, calls: seq<Call>, result: Result<()>)

  /** `RefreshAsync()`: refresh the stored refresh token under the four
      internal scopes, then refresh the refresh token that came back under
      `ViewablesRead`, and only then overwrite all four properties. */
  function Refresh(c: Credentials, env: Environment, svc: AuthService, now: int): (r: Renewal)
    ensures r.result.Fail? ==> r.credentials == c
    ensures NoExchange(r.calls)
    ensures RefreshKeys(env).Fail? ==> r.result.Fail? && r.calls == []
    ensures RefreshKeys(env).Ok? ==>
      var k := RefreshKeys(env).value;
      var first := Renew(k, ScopeInternal, c.refreshToken);
      match svc.refresh(k, ScopeInternal, c.refreshToken)
      case Fail(e) => r.result == Fail(e) && r.calls == [first]
      case Ok(i) =>
        && r.calls == [first, Renew(k, ScopePublic, Some(i.refreshToken))]
        && match svc.refresh(k, ScopePublic, Some(i.refreshToken))
           case Fail(e) => r.result == Fail(e)
           case Ok(p) =>
             && r.result.Ok?
             && r.credentials == Credentials(Some(i.accessToken), Some(p.accessToken), Some(p.refreshToken),
                                             now + TicksPerSecond * i.expiresIn)
  {
    match RefreshKeys(env)
    case Fail(e) => Renewal(c, [], Fail(e))
    case Ok(k) =>
      var first := Renew(k, ScopeInternal, c.refreshToken);
      match svc.refresh(k, ScopeInternal, c.refreshToken)
      case Fail(e) => Renewal(c, [first], Fail(e))
      case Ok(i) =>
        var t := Some(i.refreshToken);
        var calls := [first, Renew(k, ScopePublic, t)];
        match svc.refresh(k, ScopePublic, t)
        case Fail(e) => Renewal(c, calls, Fail(e))
        case Ok(p) =>
          Renewal(Credentials(Some(i.accessToken), Some(p.accessToken), Some(p.refreshToken),
                              now + TicksPerSecond * i.expiresIn), calls, Ok(()))
  }

  /** The request's cookies, already deserialized; None is a null collection. */
  type Jar = Option<map<string, Credentials>>

  /** The stored credentials, when the collection exists and has the cookie. */
  function Stored(request: Jar): Option<Credentials> {
    if request.Some? && ForgeCookie in request.value then Some(request.value[ForgeCookie]) else None
  }

  /** `FromSessionAsync`: null without the cookie; otherwise the stored
      credentials, refreshed and rewritten first when strictly past expiry. */
  function FromSession(request: Jar, env: Environment, svc: AuthService, now: int): (r: CsStep<Option<Credentials>>)
    ensures r.result == Ok(None) <==> request.None? || ForgeCookie !in request.value
    ensures r.cookieOps != [] ==> r.result.Ok?
    ensures Stored(request).Some? ==>
      var c := Stored(request).value;
      && (!(c.expiresAt < now) ==> r.result == Ok(Some(c)) && r.calls == [] && r.cookieOps == [])
      && (c.expiresAt < now ==>
            var f := Refresh(c, env, svc, now);
            && r.calls == f.calls
            && (f.result.Fail? ==> r.result == Fail(f.result.error) && r.cookieOps == [])
            && (f.result.Ok? ==>
                  r.result == Ok(Some(f.credentials))
                  && r.cookieOps == [Delete(ForgeCookie), Append(ForgeCookie, f.credentials)]))
  {
    match Stored(request)
    case None => CsStep([], [], Ok(None))
    case Some(c) =>
      if c.expiresAt < now then
        var f := Refresh(c, env, svc, now);
        match f.result
        case Fail(e) => CsStep([], f.calls, Fail(e))
        case Ok(_) => CsStep([Delete(ForgeCookie), Append(ForgeCookie, f.credentials)], f.calls, Ok(Some(f.credentials)))
      else CsStep([], [], Ok(Some(c)))
  }

  /** `(int)` of a `TimeSpan`'s `TotalSeconds`: whole seconds, truncated
      toward zero. */
  function TruncSeconds(d: int): (r: int)
    ensures d >= 0 ==> 0 <= r && TicksPerSecond * r <= d < TicksPerSecond * (r + 1)
    ensures d < 0 ==> r <= 0 && TicksPerSecond * (r - 1) < d <= TicksPerSecond * r
  {
    if d >= 0 then d / TicksPerSecond else -((-d) / TicksPerSecond)
  }

  /** The `AccessToken` struct; its default is a null token and zero seconds. */
  datatype AccessToken = AccessToken(accessToken: Option<string>, expiresIn: int)

  /** A status code with the token record as body. */
  datatype Reply = Reply(status: int, token: AccessToken)

  /** `GET api/forge/oauth/token`: 401 and the default record without
      credentials; otherwise the public token and the seconds left. */
  function GetPublicTokenAsync(request: Jar, env: Environment, svc: AuthService, now: int): (r: CsStep<Reply>)
    ensures
      var f := FromSession(request, env, svc, now);
      && r.cookieOps == f.cookieOps && r.calls == f.calls
      && (f.result.Fail? ==> r.result == Fail(f.result.error))
      && (f.result == Ok(None) ==> r.result == Ok(Reply(StatusUnauthorized, AccessToken(None, 0))))
      && (f.result.Ok? && f.result.value.Some? ==>
            var c := f.result.value.value;
            r.result == Ok(Reply(StatusOk, AccessToken(c.tokenPublic, TruncSeconds(c.expiresAt - now)))))
    ensures Stored(request).None? ==> r.result == Ok(Reply(StatusUnauthorized, AccessToken(None, 0))) && r.calls == []
  {
    var f := FromSession(request, env, svc, now);
    match f.result
    case Fail(e) => CsStep(f.cookieOps, f.calls, Fail(e))
    case Ok(None) => CsStep(f.cookieOps, f.calls, Ok(Reply(StatusUnauthorized, AccessToken(None, 0))))
    case Ok(Some(c)) =>
      CsStep(f.cookieOps, f.calls, Ok(Reply(StatusOk, AccessToken(c.tokenPublic, TruncSeconds(c.expiresAt - now)))))
  }

  /** `Signout`: the cookie is deleted (the action then redirects home). */
  function Signout(): (ops: seq<CookieOp>)
    ensures |ops| == 1 && ops[0].Delete? && ops[0].name == ForgeCookie
  {
    [Delete(ForgeCookie)]
  }

  /** `GET api/forge/callback/oauth`: create the credentials, then redirect
      home; a failure propagates and no cookie is written. */
  function OAuthCallback(env: Environment, svc: AuthService, code: string, now: int): (r: CsStep<string>)
    ensures
      var c := CreateFromCode(env, svc, code, now);
      && r.cookieOps == c.cookieOps && r.calls == c.calls
      && (r.result.Ok? <==> c.result.Ok?)
      && (r.result.Ok? ==> r.result.value == "/")
  {
    var c := CreateFromCode(env, svc, code, now);
    match c.result
    case Fail(e) => CsStep(c.cookieOps, c.calls, Fail(e))
    case Ok(_) => CsStep(c.cookieOps, c.calls, Ok("/"))
  }

  /** The cookie store after the browser applies the response's effects. */
  function ApplyCookies(jar: map<string, Credentials>, ops: seq<CookieOp>): map<string, Credentials>
    decreases |ops|
  {
    if |ops| == 0 then jar
    else
      var next := match ops[0]
        case Append(n, v) => jar[n := v]
        case Delete(n) => jar - {n};
      ApplyCookies(next, ops[1..])
  }

  // ---------------------------------------------------------------------
  // Properties of the cookie-backed machine

  /** Only the "Production" branch consults the Parameter Store. */
  lemma AppSettingIgnoresStoreOutsideProduction(env: Environment, other: Option<string> -> Result<string>, key: string)
    requires Lookup(env.vars, "ASPNETCORE_ENVIRONMENT") != Some("Production")
    ensures GetAppSetting(env, key) == GetAppSetting(env.(ssm := other), key)
    ensures GetAppSetting(env, key).Ok?
  {
  }

  /** The expiry comparison is strict: credentials that expire exactly now
      come back untouched; one tick earlier they are refreshed. */
  lemma ExpiryIsStrict(c: Credentials, env: Environment, svc: AuthService)
    requires RefreshKeys(env).Ok?
    ensures
      var jar := Some(map[ForgeCookie := c]);
      && FromSession(jar, env, svc, c.expiresAt) == CsStep([], [], Ok(Some(c)))
      && FromSession(jar, env, svc, c.expiresAt + 1).calls != []
  {
  }

  /** A refreshed cookie replaces the stored one and leaves every other
      cookie alone; a failed refresh writes nothing. */
  lemma RefreshRewritesCookie(jar: map<string, Credentials>, env: Environment, svc: AuthService, now: int)
    ensures
      var r := FromSession(Some(jar), env, svc, now);
      var after := ApplyCookies(jar, r.cookieOps);
      && (r.result.Fail? ==> after == jar)
      && (r.result.Ok? && r.result.value.Some? ==> ForgeCookie in after && after[ForgeCookie] == r.result.value.value)
      && (forall n | n in jar && n != ForgeCookie :: n in after && after[n] == jar[n])
  {
    var r := FromSession(Some(jar), env, svc, now);
    if r.cookieOps != [] {
      var v := r.result.value.value;
      assert r.cookieOps == [Delete(ForgeCookie), Append(ForgeCookie, v)];
      var mid := jar - {ForgeCookie};
      assert ApplyCookies(jar, r.cookieOps) == ApplyCookies(mid, [Append(ForgeCookie, v)]);
      assert ApplyCookies(mid, [Append(ForgeCookie, v)]) == ApplyCookies(mid[ForgeCookie := v], []);
    }
  }

  /** After sign-out the token endpoint answers 401 with the default record
      and calls nobody. */
  lemma SignoutRevokesAccess(jar: map<string, Credentials>, env: Environment, svc: AuthService, now: int)
    ensures
      var r := GetPublicTokenAsync(Some(ApplyCookies(jar, Signout())), env, svc, now);
      r.result == Ok(Reply(StatusUnauthorized, AccessToken(None, 0))) && r.calls == [] && r.cookieOps == []
  {
  }

  /** Seconds of a whole number of seconds' worth of ticks are exact. */
  lemma TruncWholeSeconds(n: int)
    ensures TruncSeconds(TicksPerSecond * n) == n
  {
  }

  /** Reading the token at the instant the code was redeemed hands out the
      new public token with exactly the internal response's lifetime, and
      triggers no refresh when that lifetime is not negative. */
  lemma CreateThenRead(env: Environment, svc: AuthService, code: string, now: int)
    requires NonNegativeLifetimes(svc)
    ensures
      var c := CreateFromCode(env, svc, code, now);
      c.result.Ok? ==>
        var jar := ApplyCookies(map[], c.cookieOps);
        var g := GetPublicTokenAsync(Some(jar), env, svc, now);
        var i := svc.exchange(ExchangeKeys(env).value, code).value;
        && g.calls == [] && g.cookieOps == []
        && g.result == Ok(Reply(StatusOk, AccessToken(c.result.value.tokenPublic, i.expiresIn)))
  {
  }
}
