/** The JavaScript `OAuth` class (routes/common/oauth.js): a per-user session
    holding an internal token, a viewer-only public token, one refresh token
    and an expiry instant, plus the process-wide cache of client settings.
    Every operation takes the session and the cache and returns their new
    values, the outcome, and the outside calls it made. Time is an integer
    number of milliseconds since the epoch. */
module JsOAuth {
  import opened Upstream

  /** JavaScript truthiness of a string: null, undefined and "" are falsy. */
  predicate Truthy(v: Option<string>) {
    v.Some? && v.value != ""
  }

  /** The four session fields; `expiresAt` is an epoch instant in milliseconds. */
  datatype Session = Session(
    internalToken: Option<string>,
    publicToken: Option<string>,
    refreshToken: Option<string>,
    expiresAt: Option<int>)

  /** The session a request sees before any token was stored in it. */
  const EmptySession := Session(None, None, None, None)

  /** What the configuration module supplies: the two scope lists, and the
      answer a read of the three client settings gives (which may fail). */
  datatype Config = Config(scopeInternal: seq<string>, scopePublic: seq<string>, keys: Result<Keys>)

  /** An `AuthClientThreeLegged`: client settings bound to one scope list. */
  datatype Client = Client(keys: Keys, scopes: seq<string>)

  /** The module-level `client_id`, `client_secret`, `callback_url`, all null
      when the process starts. */
  const EmptyCache := Keys(None, None, None)

  /** All three cached settings are truthy, so no read is needed. */
  predicate Cached(cache: Keys) {
    Truthy(cache.clientId) && Truthy(cache.clientSecret) && Truthy(cache.callbackUrl)
  }

  /** The state an operation leaves behind and what it answers. */
  datatype Step<+T> = Step(session: Session, cache: Keys, calls: seq<Call>, result: Result<T>)

  datatype ClientStep = ClientStep(cache: Keys, calls: seq<Call>, result: Result<Client>)

  /** `getClient(scopes)`: reads the settings only when a cached one is falsy. */
  function GetClient(cache: Keys, fetched: Result<Keys>, scopes: seq<string>): (r: ClientStep)
    ensures Cached(cache) ==> r == ClientStep(cache, [], Ok(Client(cache, scopes)))
    ensures !Cached(cache) ==> r.calls == [FetchKeys]
    ensures !Cached(cache) && fetched.Fail? ==> r.cache == cache && r.result == Fail(fetched.error)
    ensures !Cached(cache) && fetched.Ok? ==> r.cache == fetched.value && r.result == Ok(Client(fetched.value, scopes))
  {
    if Cached(cache) then ClientStep(cache, [], Ok(Client(cache, scopes)))
    else
      match fetched
      case Fail(e) => ClientStep(cache, [FetchKeys], Fail(e))
      case Ok(k) => ClientStep(k, [FetchKeys], Ok(Client(k, scopes)))
  }

  /** The settings every client of one operation is built from. */
  function KeysUsed(cache: Keys, fetched: Result<Keys>): Result<Keys> {
    if Cached(cache) then Ok(cache) else fetched
  }

  /** The cache after an operation has asked for its clients. */
  function CacheAfter(cache: Keys, fetched: Result<Keys>): Keys {
    if Cached(cache) || fetched.Fail? then cache else fetched.value
  }

  /** The settings reads made while asking for the internal-scope client and
      then the public-scope client: none when cached, one when the first read
      fails or fills the cache, two when it leaves a falsy setting behind. */
  function Fetches(cache: Keys, fetched: Result<Keys>): seq<Call> {
    if Cached(cache) then []
    else if fetched.Ok? && !Cached(fetched.value) then [FetchKeys, FetchKeys]
    else [FetchKeys]
  }

  datatype ClientPair = ClientPair(cache: Keys, calls: seq<Call>, result: Result<(Client, Client)>)

  /** The two `getClient` calls that open `setCode` and `_refreshTokens`. */
  function Clients(cache: Keys, cfg: Config): (r: ClientPair)
    ensures r.cache == CacheAfter(cache, cfg.keys)
    ensures r.calls == Fetches(cache, cfg.keys)
    ensures r.result.Ok? <==> KeysUsed(cache, cfg.keys).Ok?
    ensures r.result.Ok? ==>
      var k := KeysUsed(cache, cfg.keys).value;
      r.result.value == (Client(k, cfg.scopeInternal), Client(k, cfg.scopePublic))
  {
    var a := GetClient(cache, cfg.keys, cfg.scopeInternal);
    match a.result
    case Fail(e) => ClientPair(a.cache, a.calls, Fail(e))
    case Ok(ic) =>
      var b := GetClient(a.cache, cfg.keys, cfg.scopePublic);
      match b.result
      case Fail(e) => ClientPair(b.cache, a.calls + b.calls, Fail(e))
      case Ok(pc) => ClientPair(b.cache, a.calls + b.calls, Ok((ic, pc)))
  }

  /** The four assignments that close `setCode` and `_refreshTokens`. */
  function Install(internal: Grant, public: Grant, now: int): Session {
    Session(Some(internal.accessToken), Some(public.accessToken), Some(public.refreshToken),
            Some(now + 1000 * public.expiresIn))
  }

  /** The common tail of `setCode` and `_refreshTokens`: given the internal
      credentials (or their failure), derive the public ones by a refresh with
      the public-scope client, and only then write the session. */
  function DerivePublic(s: Session, cache: Keys, calls: seq<Call>, internal: Result<Grant>,
                        pc: Client, svc: AuthService, now: int): Step<()>
  {
    match internal
    case Fail(e) => Step(s, cache, calls, Fail(e))
    case Ok(i) =>
      var t := Some(i.refreshToken);
      var calls' := calls + [Renew(pc.keys, pc.scopes, t)];
      match svc.refresh(pc.keys, pc.scopes, t)
      case Fail(e) => Step(s, cache, calls', Fail(e))
      case Ok(p) => Step(Install(i, p, now), cache, calls', Ok(()))
  }

  /** `setCode(code)`: redeem the code for internal credentials, derive the
      public ones from them, and store both. */
  function SetCode(s: Session, cache: Keys, cfg: Config, svc: AuthService, code: string, now: int): (r: Step<()>)
    ensures r.cache == CacheAfter(cache, cfg.keys)
    ensures r.result.Fail? ==> r.session == s
    ensures KeysUsed(cache, cfg.keys).Fail? ==>
      r.result.Fail? && r.calls == Fetches(cache, cfg.keys)
    ensures KeysUsed(cache, cfg.keys).Ok? ==>
      var k := KeysUsed(cache, cfg.keys).value;
      match svc.exchange(k, code)
      case Fail(e) =>
        r.result == Fail(e) && r.calls == Fetches(cache, cfg.keys) + [Exchange(k, code)]
      case Ok(i) =>
        && r.calls == Fetches(cache, cfg.keys) + [Exchange(k, code), Renew(k, cfg.scopePublic, Some(i.refreshToken))]
        && match svc.refresh(k, cfg.scopePublic, Some(i.refreshToken))
           case Fail(e) => r.result == Fail(e)
           case Ok(p) =>
             && r.result.Ok?
             && r.session.internalToken == Some(i.accessToken)
             && r.session.publicToken == Some(p.accessToken)
             && r.session.refreshToken == Some(p.refreshToken)
             && r.session.expiresAt == Some(now + 1000 * p.expiresIn)
  {
    var cp := Clients(cache, cfg);
    match cp.result
    case Fail(e) => Step(s, cp.cache, cp.calls, Fail(e))
    case Ok((ic, pc)) =>
      DerivePublic(s, cp.cache, cp.calls + [Exchange(ic.keys, code)], svc.exchange(ic.keys, code), pc, svc, now)
  }

  /** `_refreshTokens()`: refresh the stored refresh token under the internal
      scopes, derive new public credentials from the result, and overwrite
      all four fields by the same rule as `setCode`. */
  function RefreshTokens(s: Session, cache: Keys, cfg: Config, svc: AuthService, now: int): (r: Step<()>)
    ensures r.cache == CacheAfter(cache, cfg.keys)
    ensures r.result.Fail? ==> r.session == s
    ensures |r.calls| > 0 && NoExchange(r.calls)
    ensures KeysUsed(cache, cfg.keys).Fail? ==>
      r.result.Fail? && r.calls == Fetches(cache, cfg.keys)
    ensures KeysUsed(cache, cfg.keys).Ok? ==>
      var k := KeysUsed(cache, cfg.keys).value;
      var first := Renew(k, cfg.scopeInternal, s.refreshToken);
      match svc.refresh(k, cfg.scopeInternal, s.refreshToken)
      case Fail(e) =>
        r.result == Fail(e) && r.calls == Fetches(cache, cfg.keys) + [first]
      case Ok(i) =>
        && r.calls == Fetches(cache, cfg.keys) + [first, Renew(k, cfg.scopePublic, Some(i.refreshToken))]
        && match svc.refresh(k, cfg.scopePublic, Some(i.refreshToken))
           case Fail(e) => r.result == Fail(e)
           case Ok(p) =>
             && r.result.Ok?
             && r.session.internalToken == Some(i.accessToken)
             && r.session.publicToken == Some(p.accessToken)
             && r.session.refreshToken == Some(p.refreshToken)
             && r.session.expiresAt == Some(now + 1000 * p.expiresIn)
  {
    var cp := Clients(cache, cfg);
    match cp.result
    case Fail(e) => Step(s, cp.cache, cp.calls, Fail(e))
    case Ok((ic, pc)) =>
      var t := s.refreshToken;
      DerivePublic(s, cp.cache, cp.calls + [Renew(ic.keys, ic.scopes, t)], svc.refresh(ic.keys, ic.scopes, t), pc, svc, now)
  }

  /** `isAuthorized()`: `!!public_token`. */
  function IsAuthorized(s: Session): (b: bool)
    ensures b <==> s.publicToken.Some? && |s.publicToken.value| > 0
  {
    Truthy(s.publicToken)
  }

  /** `_isExpired()`: the clock is strictly past `expires_at`. An absent
      `expires_at` makes an invalid date, and comparing with one is false. */
  function IsExpired(s: Session, now: int): (b: bool)
    ensures s.expiresAt.None? ==> !b
    ensures b ==> ExpiresIn(s, now).value <= 0
    ensures s.expiresAt.Some? && !b ==> ExpiresIn(s, now).value >= 0
  {
    s.expiresAt.Some? && now > s.expiresAt.value
  }

  /** `Math.round(d / 1000)` for an integer `d` of milliseconds: the nearest
      whole second, halves rounded up. */
  function RoundSeconds(d: int): (r: int)
    ensures 1000 * r - 500 <= d < 1000 * r + 500
  {
    (d + 500) / 1000
  }

  /** `_expiresIn()`: whole seconds left; None stands for NaN, the value when
      `expires_at` is absent. */
  function ExpiresIn(s: Session, now: int): (r: Option<int>)
    ensures r.Some? <==> s.expiresAt.Some?
    ensures r.Some? ==> 1000 * r.value - 500 <= s.expiresAt.value - now < 1000 * r.value + 500
  {
    match s.expiresAt
    case None => None
    case Some(at) => Some(RoundSeconds(at - now))
  }

  /** The `{access_token, expires_in}` record handed to the browser. */
  datatype Token = Token(accessToken: Option<string>, expiresIn: Option<int>)

  /** The shared opening of both accessors: refresh first when expired. */
  function Fresh(s: Session, cache: Keys, cfg: Config, svc: AuthService, now: int): Step<()> {
    if IsExpired(s, now) then RefreshTokens(s, cache, cfg, svc, now)
    else Step(s, cache, [], Ok(()))
  }

  /** `getPublicToken()`. */
  function GetPublicToken(s: Session, cache: Keys, cfg: Config, svc: AuthService, now: int): (r: Step<Token>)
    ensures r.calls != [] <==> IsExpired(s, now)
    ensures !IsExpired(s, now) ==>
      r.session == s && r.cache == cache && r.result == Ok(Token(s.publicToken, ExpiresIn(s, now)))
    ensures IsExpired(s, now) ==>
      var f := RefreshTokens(s, cache, cfg, svc, now);
      && r.session == f.session && r.cache == f.cache && r.calls == f.calls
      && (f.result.Fail? ==> r.result == Fail(f.result.error))
      && (f.result.Ok? ==> r.result == Ok(Token(f.session.publicToken, ExpiresIn(f.session, now))))
    ensures r.result.Fail? ==> r.session == s
    ensures NoExchange(r.calls)
  {
    var f := Fresh(s, cache, cfg, svc, now);
    match f.result
    case Fail(e) => Step(f.session, f.cache, f.calls, Fail(e))
    case Ok(_) => Step(f.session, f.cache, f.calls, Ok(Token(f.session.publicToken, ExpiresIn(f.session, now))))
  }

  /** `getInternalToken()`: gated by the same `expires_at` as the public token. */
  function GetInternalToken(s: Session, cache: Keys, cfg: Config, svc: AuthService, now: int): (r: Step<Token>)
    ensures r.calls != [] <==> IsExpired(s, now)
    ensures !IsExpired(s, now) ==>
      r.session == s && r.cache == cache && r.result == Ok(Token(s.internalToken, ExpiresIn(s, now)))
    ensures IsExpired(s, now) ==>
      var f := RefreshTokens(s, cache, cfg, svc, now);
      && r.session == f.session && r.cache == f.cache && r.calls == f.calls
      && (f.result.Fail? ==> r.result == Fail(f.result.error))
      && (f.result.Ok? ==> r.result == Ok(Token(f.session.internalToken, ExpiresIn(f.session, now))))
    ensures r.result.Fail? ==> r.session == s
    ensures NoExchange(r.calls)
  {
    var f := Fresh(s, cache, cfg, svc, now);
    match f.result
    case Fail(e) => Step(f.session, f.cache, f.calls, Fail(e))
    case Ok(_) => Step(f.session, f.cache, f.calls, Ok(Token(f.session.internalToken, ExpiresIn(f.session, now))))
  }

  // ---------------------------------------------------------------------
  // Properties of the session machine

  /** Whenever a public token is stored, a refresh token and an expiry are too. */
  predicate Consistent(s: Session) {
    s.publicToken.Some? ==> s.refreshToken.Some? && s.expiresAt.Some?
  }

  /** `isAuthorized` is exactly "a non-empty public token is present", and the
      expiry plays no part in it. */
  lemma AuthorizedIgnoresExpiry(s: Session, at: Option<int>)
    ensures IsAuthorized(s) <==> s.publicToken.Some? && s.publicToken.value != ""
    ensures IsAuthorized(s.(expiresAt := at)) == IsAuthorized(s)
  {
  }

  /** The expiry comparison is strict: at the instant `expires_at` itself
      neither accessor refreshes; one millisecond later both do. */
  lemma ExpiryIsStrict(s: Session, cache: Keys, cfg: Config, svc: AuthService)
    requires s.expiresAt.Some?
    ensures GetPublicToken(s, cache, cfg, svc, s.expiresAt.value).calls == []
    ensures GetInternalToken(s, cache, cfg, svc, s.expiresAt.value).calls == []
    ensures GetPublicToken(s, cache, cfg, svc, s.expiresAt.value + 1).calls != []
    ensures GetInternalToken(s, cache, cfg, svc, s.expiresAt.value + 1).calls != []
  {
  }

  /** Two reads of a still-valid session hand out the same public token, and
      the first read changes nothing the second one sees. */
  lemma PublicTokenStable(s: Session, cache: Keys, cfg: Config, svc: AuthService, now1: int, now2: int)
    requires now1 <= now2
    requires !IsExpired(s, now2)
    ensures
      var first := GetPublicToken(s, cache, cfg, svc, now1);
      var second := GetPublicToken(first.session, first.cache, cfg, svc, now2);
      && first.session == s && first.cache == cache
      && first.result.Ok? && second.result.Ok?
      && first.result.value.accessToken == second.result.value.accessToken == s.publicToken
      && first.calls == second.calls == []
  {
  }

  /** The seconds left never grow as time passes, and drop by at least one
      across a gap of a whole second or more. */
  lemma ExpiresInDecreases(s: Session, now1: int, now2: int)
    requires s.expiresAt.Some?
    requires now1 <= now2
    ensures ExpiresIn(s, now2).value <= ExpiresIn(s, now1).value
    ensures now2 - now1 >= 1000 ==> ExpiresIn(s, now2).value < ExpiresIn(s, now1).value
  {
  }

  /** A successful `setCode` authorizes the session exactly when the public
      token it derived is non-empty, and leaves a consistent session whose
      two tokens come from two different calls: the code exchange and the
      refresh under the public scopes. */
  lemma SetCodeAuthorizes(s: Session, cache: Keys, cfg: Config, svc: AuthService, code: string, now: int)
    ensures
      var r := SetCode(s, cache, cfg, svc, code, now);
      r.result.Ok? ==>
        var k := KeysUsed(cache, cfg.keys).value;
        var i := svc.exchange(k, code).value;
        var p := svc.refresh(k, cfg.scopePublic, Some(i.refreshToken)).value;
        && Consistent(r.session)
        && (IsAuthorized(r.session) <==> p.accessToken != "")
        && r.session.internalToken == Some(i.accessToken)
        && r.session.publicToken == Some(p.accessToken)
  {
  }

  /** Right after a successful `setCode` with non-negative lifetimes, reading
      the public token costs no outside call and hands out the stored token. */
  lemma SetCodeThenRead(s: Session, cache: Keys, cfg: Config, svc: AuthService, code: string, now: int)
    requires NonNegativeLifetimes(svc)
    ensures
      var r := SetCode(s, cache, cfg, svc, code, now);
      r.result.Ok? ==>
        var g := GetPublicToken(r.session, r.cache, cfg, svc, now);
        g.calls == [] && g.session == r.session && g.result.Ok? && g.result.value.accessToken == r.session.publicToken
  {
  }

  /** A successful refresh with non-negative lifetimes moves an expired
      session back to a valid one: the next read at the same instant makes
      no outside call. */
  lemma RefreshRevalidates(s: Session, cache: Keys, cfg: Config, svc: AuthService, now: int)
    requires NonNegativeLifetimes(svc)
    ensures
      var r := RefreshTokens(s, cache, cfg, svc, now);
      r.result.Ok? ==> !IsExpired(r.session, now) && GetPublicToken(r.session, r.cache, cfg, svc, now).calls == []
  {
  }

  /** Every operation keeps a consistent session consistent. */
  lemma OperationsKeepConsistent(s: Session, cache: Keys, cfg: Config, svc: AuthService, code: string, now: int)
    requires Consistent(s)
    ensures Consistent(SetCode(s, cache, cfg, svc, code, now).session)
    ensures Consistent(RefreshTokens(s, cache, cfg, svc, now).session)
    ensures Consistent(GetPublicToken(s, cache, cfg, svc, now).session)
    ensures Consistent(GetInternalToken(s, cache, cfg, svc, now).session)
  {
  }

  /** Once the three settings are cached, every later operation reuses them
      unchanged and never reads the configuration again. */
  lemma CacheIsReused(cache: Keys, cfg: Config, svc: AuthService, s: Session, code: string, now: int)
    requires Cached(cache)
    ensures CacheAfter(cache, cfg.keys) == cache && Fetches(cache, cfg.keys) == []
    ensures SetCode(s, cache, cfg, svc, code, now).cache == cache
    ensures RefreshTokens(s, cache, cfg, svc, now).cache == cache
    ensures FetchKeys !in SetCode(s, cache, cfg, svc, code, now).calls
    ensures FetchKeys !in RefreshTokens(s, cache, cfg, svc, now).calls
  {
  }

  /** A read that returns three truthy settings fills the cache for good. */
  lemma CacheFillsOnce(cache: Keys, cfg: Config)
    requires cfg.keys.Ok? && Cached(cfg.keys.value)
    ensures Cached(CacheAfter(cache, cfg.keys))
    ensures |Fetches(cache, cfg.keys)| <= 1
    ensures Fetches(CacheAfter(cache, cfg.keys), cfg.keys) == []
  {
  }
}
