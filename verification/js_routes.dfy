/** The Express routes of routes/oauth.js that sit on the `OAuth` class: the
    sign-in URL, the code callback, sign-out and the token endpoint. Only
    the outcome of each handler is kept: the response it sends and the
    session it leaves. */
module JsRoutes {
  import opened Upstream
  import opened Text
  import opened JsOAuth

  /** What a handler answers. */
  datatype Response =
    | Unauthorized                 // status 401 with an empty body
    | Json(token: Token)           // the token record as JSON
    | Body(text: string)           // a plain-text body
    | Redirect(location: string)
    | Forwarded(error: Error)      // handed to the next error handler

  /** The session and cache a handler leaves, the outside calls it made, and
      its response. */
  datatype Handled = Handled(session: Session, cache: Keys, calls: seq<Call>, response: Response)

  /** The fixed front of the sign-in URL: host, authorize endpoint, and the
      request for an authorization code (section 4.1.1 of RFC 6749). */
  const AuthorizeHost := "https://developer.api.autodesk.com"
  const AuthorizePath := "/authentication/v1/authorize"
  const AuthorizeQuery := "?response_type=code"
  const AuthorizeBase := AuthorizeHost + AuthorizePath + AuthorizeQuery

  /** The sign-in URL: the fixed front, then the client id, the callback URL
      and the space-separated scopes, each appended as it is, unencoded. */
  function AuthorizeUrl(clientId: string, callbackUrl: string, scopes: seq<string>): (url: string)
    ensures |url| >= |AuthorizeBase| && url[..|AuthorizeBase|] == AuthorizeBase
  {
    WithParameters(AuthorizeBase, clientId, callbackUrl, scopes)
  }

  /** The three parameters appended to a front, as the route concatenates them. */
  function WithParameters(front: string, clientId: string, callbackUrl: string, scopes: seq<string>): (url: string)
    ensures |url| >= |front| && url[..|front|] == front
  {
    front + ("&client_id=" + clientId + ("&redirect_uri=" + callbackUrl + ("&scope=" + Join(scopes, ' '))))
  }

  /** `GET /oauth/url`: the client id and callback URL are read (which may
      fail) and the URL is sent as the body. */
  function UrlRoute(settings: Result<(string, string)>, scopeInternal: seq<string>): (r: Response)
    ensures settings.Fail? ==> r == Forwarded(settings.error)
    ensures settings.Ok? ==> r.Body? && |r.text| >= |AuthorizeBase| && r.text[..|AuthorizeBase|] == AuthorizeBase
    ensures settings.Ok? ==> r == Body(AuthorizeUrl(settings.value.0, settings.value.1, scopeInternal))
  {
    match settings
    case Fail(e) => Forwarded(e)
    case Ok((id, cb)) => Body(AuthorizeUrl(id, cb, scopeInternal))
  }

  /** `GET /callback/oauth`: redirect home only when `setCode` succeeds. */
  function CallbackRoute(s: Session, cache: Keys, cfg: Config, svc: AuthService, code: string, now: int): (r: Handled)
    ensures
      var done := SetCode(s, cache, cfg, svc, code, now);
      && r.session == done.session && r.cache == done.cache && r.calls == done.calls
      && (r.response == Redirect("/") <==> done.result.Ok?)
      && (done.result.Fail? ==> r.response == Forwarded(done.result.error) && r.session == s)
  {
    var done := SetCode(s, cache, cfg, svc, code, now);
    match done.result
    case Ok(_) => Handled(done.session, done.cache, done.calls, Redirect("/"))
    case Fail(e) => Handled(done.session, done.cache, done.calls, Forwarded(e))
  }

  /** `GET /oauth/signout`: the whole session becomes null, then home. */
  function SignoutRoute(s: Session): (r: (Option<Session>, Response))
    ensures r.0 == None && r.1 == Redirect("/")
  {
    (None, Redirect("/"))
  }

  /** The session the next request sees: a cleared session comes back as a
      fresh, empty one. */
  function Reload(stored: Option<Session>): (s: Session)
    ensures stored.None? ==> s == EmptySession
    ensures stored.Some? ==> s == stored.value
  {
    match stored
    case None => EmptySession
    case Some(s) => s
  }

  /** `GET /oauth/token`: 401 without touching the token machinery when the
      session is not authorized; otherwise the record `getPublicToken` makes. */
  function TokenRoute(s: Session, cache: Keys, cfg: Config, svc: AuthService, now: int): (r: Handled)
    ensures !IsAuthorized(s) <==> r.response == Unauthorized
    ensures !IsAuthorized(s) ==> r.session == s && r.cache == cache && r.calls == []
    ensures IsAuthorized(s) ==>
      var g := GetPublicToken(s, cache, cfg, svc, now);
      && r.session == g.session && r.cache == g.cache && r.calls == g.calls
      && (g.result.Ok? ==> r.response == Json(g.result.value))
      && (g.result.Fail? ==> r.response == Forwarded(g.result.error))
  {
    if !IsAuthorized(s) then Handled(s, cache, [], Unauthorized)
    else
      var g := GetPublicToken(s, cache, cfg, svc, now);
      match g.result
      case Ok(t) => Handled(g.session, g.cache, g.calls, Json(t))
      case Fail(e) => Handled(g.session, g.cache, g.calls, Forwarded(e))
  }

  // ---------------------------------------------------------------------
  // Properties of the routes

  /** The fixed front holds no `&`. */
  lemma BaseLacksAmpersand()
    ensures '&' !in AuthorizeBase
  {
  }

  /** The URL is the front followed by each parameter behind its own `&`. */
  lemma ParametersShape(front: string, clientId: string, callbackUrl: string, scopes: seq<string>)
    ensures WithParameters(front, clientId, callbackUrl, scopes)
         == front + ['&'] + (("client_id=" + clientId) + ['&'] + (("redirect_uri=" + callbackUrl) + ['&'] + ("scope=" + Join(scopes, ' '))))
  {
    ParameterPrefixes();
  }

  /** Splitting at `&` separates the front from the three parameters when
      none of them holds `&`. */
  lemma {:induction false} ParametersSplit(front: string, clientId: string, callbackUrl: string, scopes: seq<string>)
    requires '&' !in front && '&' !in clientId && '&' !in callbackUrl
    requires forall i | 0 <= i < |scopes| :: '&' !in scopes[i]
    ensures Split(WithParameters(front, clientId, callbackUrl, scopes), '&')
         == [front, "client_id=" + clientId, "redirect_uri=" + callbackUrl, "scope=" + Join(scopes, ' ')]
  {
    JoinAvoids(scopes, ' ', '&');
    ParametersShape(front, clientId, callbackUrl, scopes);
    NamesLackAmpersand();
    SplitFour(front, "client_id=" + clientId, "redirect_uri=" + callbackUrl, "scope=" + Join(scopes, ' '), '&');
  }

  /** When neither setting nor any scope holds `&`, splitting the sign-in URL
      at `&` gives back exactly the fixed front and the three parameters, in
      order. */
  lemma AuthorizeUrlParameters(clientId: string, callbackUrl: string, scopes: seq<string>)
    requires '&' !in clientId && '&' !in callbackUrl
    requires forall i | 0 <= i < |scopes| :: '&' !in scopes[i]
    ensures Split(AuthorizeUrl(clientId, callbackUrl, scopes), '&')
         == [AuthorizeBase, "client_id=" + clientId, "redirect_uri=" + callbackUrl, "scope=" + Join(scopes, ' ')]
  {
    BaseLacksAmpersand();
    ParametersSplit(AuthorizeBase, clientId, callbackUrl, scopes);
  }

  /** The body `GET /oauth/url` sends carries the client id, callback URL and
      scopes that were read, each in its own parameter, when none holds `&`. */
  lemma UrlRouteParameters(clientId: string, callbackUrl: string, scopeInternal: seq<string>)
    requires '&' !in clientId && '&' !in callbackUrl
    requires forall i | 0 <= i < |scopeInternal| :: '&' !in scopeInternal[i]
    ensures
      var r := UrlRoute(Ok((clientId, callbackUrl)), scopeInternal);
      && r.Body?
      && Split(r.text, '&')
         == [AuthorizeBase, "client_id=" + clientId, "redirect_uri=" + callbackUrl, "scope=" + Join(scopeInternal, ' ')]
  {
    AuthorizeUrlParameters(clientId, callbackUrl, scopeInternal);
  }

  /** The scope parameter splits back into the scope list when no scope holds
      a space. */
  lemma ScopeParameterRoundTrip(scopes: seq<string>)
    requires |scopes| > 0
    requires forall i | 0 <= i < |scopes| :: ' ' !in scopes[i]
    ensures Split(Join(scopes, ' '), ' ') == scopes
  {
    SplitJoin(scopes, ' ');
  }

  /** The separators in front of each parameter name. */
  lemma ParameterPrefixes()
    ensures "&client_id=" == ['&'] + "client_id="
    ensures "&redirect_uri=" == ['&'] + "redirect_uri="
    ensures "&scope=" == ['&'] + "scope="
    ensures "&" == ['&']
  {
  }

  /** The parameter names hold no `&`. */
  lemma NamesLackAmpersand()
    ensures '&' !in "client_id=" && '&' !in "redirect_uri=" && '&' !in "scope="
  {
  }

  /** Values are not encoded: an `&` inside the client id splits it into an
      extra parameter that the authorization server sees on its own. */
  lemma {:induction false} UnencodedClientIdAddsParameter(front: string, id1: string, id2: string, callbackUrl: string, scopes: seq<string>)
    requires '&' !in front && '&' !in id1 && '&' !in id2 && '&' !in callbackUrl
    requires forall i | 0 <= i < |scopes| :: '&' !in scopes[i]
    ensures Split(WithParameters(front, id1 + "&" + id2, callbackUrl, scopes), '&')
         == [front, "client_id=" + id1, id2, "redirect_uri=" + callbackUrl, "scope=" + Join(scopes, ' ')]
  {
    var p1, p3, p4 := "client_id=" + id1, "redirect_uri=" + callbackUrl, "scope=" + Join(scopes, ' ');
    JoinAvoids(scopes, ' ', '&');
    ParametersShape(front, id1 + "&" + id2, callbackUrl, scopes);
    ParameterPrefixes();
    var t3 := p3 + ['&'] + p4;
    var t2 := id2 + ['&'] + t3;
    assert ("client_id=" + (id1 + "&" + id2)) + ['&'] + t3 == p1 + ['&'] + t2;
    NamesLackAmpersand();
    SplitFour(p1, id2, p3, p4, '&');
    SplitAfterPiece(front, '&', p1 + ['&'] + t2);
  }

  /** After sign-out the next token request is refused with 401 and reaches
      neither the configuration nor the authorization service. */
  lemma SignoutRevokesAccess(s: Session, cache: Keys, cfg: Config, svc: AuthService, now: int)
    ensures
      var next := Reload(SignoutRoute(s).0);
      var r := TokenRoute(next, cache, cfg, svc, now);
      r.response == Unauthorized && r.calls == [] && r.session == EmptySession
  {
  }

  /** A successful callback authorizes the session for the token route when
      the derived public token is non-empty; a failed one changes nothing. */
  lemma CallbackThenToken(s: Session, cache: Keys, cfg: Config, svc: AuthService, code: string, now: int)
    ensures
      var c := CallbackRoute(s, cache, cfg, svc, code, now);
      && (c.response.Forwarded? ==> c.session == s)
      && (c.response == Redirect("/") && c.session.publicToken.Some? && c.session.publicToken.value != "" ==>
            TokenRoute(c.session, c.cache, cfg, svc, now).response != Unauthorized)
  {
  }
}
