# Three-legged OAuth token sessions, modelled in Dafny

The sample applications keep two tiers of Autodesk Forge access tokens per user.
The internal token has broad data scopes. The public token has only
`viewables:read` and is safe to give to the browser. Both come from the
authorization-code grant (section 4.1 of RFC 6749). The public token is never
obtained by a second code exchange. It is derived by refreshing the internal
credentials with a narrower scope list (section 6 of RFC 6749). The tokens are
refreshed when they are read after expiry.

The machine exists twice, and the model keeps both so that their differences stay visible:

- `JsOAuth` (js_oauth.dfy) models the JavaScript `OAuth` class. It holds the four session fields and the process-wide cache of client settings.
- `JsRoutes` (js_routes.dfy) models the Express routes of the viewhubs sample (routes/oauth.js). That package loads its own `./common/oauth` class, which is not part of this model; the routes are modelled over `JsOAuth` instead, on the assumption that the two classes behave alike. The routes cover the 401 gate of the token endpoint, the sign-in URL, sign-out and the code callback.
- `CsOAuth` (cs_oauth.dfy) models the C# `Credentials` class and its controller actions. Its credentials live in the `ForgeApp` cookie.
- `Variants` (variants.dfy) holds lemmas that set the two implementations side by side.
- `Upstream` (upstream.dfy) holds the shared vocabulary. The authorization service is a pair of uninterpreted function values, `exchange` and `refresh`. Each returns a `Grant` (`{access_token, refresh_token, expires_in}`) or an `Error`.
- `Text` (text.dfy) holds `Join` and `Split` with their round-trip lemmas.

Every operation is a pure function. It takes the state, the service, the configuration and the current time. It returns the new state, the outcome and the trace of outside calls it made: calls to the authorization service (`Exchange`, `Renew`) and, in JavaScript, reads of the client settings (`FetchKeys`). The C# trace leaves out its settings reads; `ExchangeKeys` and `RefreshKeys` stand for them. Through the trace, the contracts can say which upstream calls happen, in which order and with which arguments. They can also say that none happens. JavaScript time is in milliseconds. C# time is in `DateTime` ticks, ten million per second.

Some rules of the code are easy to misread:

- `isAuthorized` tests JavaScript truthiness, not mere presence, so an empty public token is not authorized.
- The client-settings cache is refetched as long as any cached setting is falsy, not "exactly once".
- The C# version dates the expiry from the internal response, while the JavaScript version uses the public response.
- A refresh makes an expired session valid again only when the service grants a non-negative lifetime (`RefreshRevalidates` assumes it).

## Model

| member | source | states |
|---|---|---|
| JsOAuth.GetClient | packages/autodesk.forge.bim360.aws-cloudformation.nodejs/routes/common/oauth.js:34-42 | settings are read only when a cached one is falsy; a cached triple is reused unchanged; a failed read leaves the cache as it was |
| JsOAuth.Clients | packages/autodesk.forge.bim360.aws-cloudformation.nodejs/routes/common/oauth.js:74-75 | the internal- and public-scope clients share one set of settings; the number of settings reads is zero, one or two, depending on what the cache and the first read hold |
| JsOAuth.SetCode | packages/autodesk.forge.bim360.aws-cloudformation.nodejs/routes/common/oauth.js:73-84 | the code is exchanged once, then the internal refresh token is refreshed under the public scopes; on success internal_token, public_token, refresh_token (from the public response) and expires_at = now + 1000 * public expires_in are stored; on any failure the session is untouched |
| JsOAuth.RefreshTokens | packages/autodesk.forge.bim360.aws-cloudformation.nodejs/routes/common/oauth.js:96-107 | the stored refresh token is refreshed under the internal scopes, and the new one under the public scopes; there is never a code exchange; all four fields are overwritten by the setCode rule, or none on failure |
| JsOAuth.RoundSeconds | packages/autodesk.forge.bim360.aws-cloudformation.nodejs/routes/common/oauth.js:89 | the result is the whole number of seconds nearest to the milliseconds given, with halves rounded up (Math.round) |
| JsOAuth.ExpiresIn | packages/autodesk.forge.bim360.aws-cloudformation.nodejs/routes/common/oauth.js:86-90 | the seconds left are within half a second of expires_at - now; the value is absent (NaN) exactly when expires_at is absent |
| JsOAuth.IsAuthorized | packages/autodesk.forge.bim360.aws-cloudformation.nodejs/routes/common/oauth.js:44-46 | a session is authorized iff a non-empty public token is stored (JavaScript truthiness) |
| JsOAuth.IsExpired | packages/autodesk.forge.bim360.aws-cloudformation.nodejs/routes/common/oauth.js:92-94 | a session without expires_at never expires; an expired session reports at most 0 seconds left and a valid one at least 0 |
| JsOAuth.GetPublicToken | packages/autodesk.forge.bim360.aws-cloudformation.nodejs/routes/common/oauth.js:48-57 | an outside call is made iff now > expires_at, strictly; a valid session comes back unchanged with its public token; an expired one answers from the refreshed session; a failed refresh leaves the session untouched |
| JsOAuth.GetInternalToken | packages/autodesk.forge.bim360.aws-cloudformation.nodejs/routes/common/oauth.js:59-68 | the same refresh rule, gated by the same expires_at, answering the internal token |
| JsOAuth.AuthorizedIgnoresExpiry | packages/autodesk.forge.bim360.aws-cloudformation.nodejs/routes/common/oauth.js:44-46 | isAuthorized holds iff a non-empty public token is present; changing expires_at never changes it |
| JsOAuth.ExpiryIsStrict | packages/autodesk.forge.bim360.aws-cloudformation.nodejs/routes/common/oauth.js:92-94 | at now == expires_at neither accessor refreshes; one millisecond later both do |
| JsOAuth.PublicTokenStable | packages/autodesk.forge.bim360.aws-cloudformation.nodejs/routes/common/oauth.js:48-57 | two reads of a still-valid session return the same access token and make no outside call |
| JsOAuth.ExpiresInDecreases | packages/autodesk.forge.bim360.aws-cloudformation.nodejs/routes/common/oauth.js:86-90 | the seconds left never grow over time, and drop strictly across a gap of a second or more |
| JsOAuth.SetCodeAuthorizes | packages/autodesk.forge.bim360.aws-cloudformation.nodejs/routes/common/oauth.js:80-83 | after a successful setCode the session is consistent and authorized iff the derived public token is non-empty; the internal token comes from the exchange, the public one from the refresh |
| JsOAuth.SetCodeThenRead | packages/autodesk.forge.bim360.aws-cloudformation.nodejs/routes/common/oauth.js:83 | with non-negative lifetimes, reading right after setCode makes no outside call and returns the stored public token |
| JsOAuth.RefreshRevalidates | packages/autodesk.forge.bim360.aws-cloudformation.nodejs/routes/common/oauth.js:106 | with non-negative lifetimes, a successful refresh leaves a session that is not expired, so the next read makes no outside call |
| JsOAuth.OperationsKeepConsistent | packages/autodesk.forge.bim360.aws-cloudformation.nodejs/routes/common/oauth.js:80-83 | whenever a public token is stored, a refresh token and an expiry are stored too, across every operation |
| JsOAuth.CacheIsReused | packages/autodesk.forge.bim360.aws-cloudformation.nodejs/routes/common/oauth.js:35 | once all three settings are truthy, no operation reads the configuration again or changes the cache |
| JsOAuth.CacheFillsOnce | packages/autodesk.forge.bim360.aws-cloudformation.nodejs/routes/common/oauth.js:35-40 | one read that returns three truthy settings fills the cache for good |
| JsRoutes.AuthorizeUrl | packages/forge-viewhubs-nodejs-aws/routes/oauth.js:47-52 | the sign-in URL begins with the fixed authorize endpoint requesting a code |
| JsRoutes.WithParameters | packages/forge-viewhubs-nodejs-aws/routes/oauth.js:50-52 | the parameters are appended after the front, which stays a prefix |
| JsRoutes.UrlRoute | packages/forge-viewhubs-nodejs-aws/routes/oauth.js:41-58 | a failed settings read is forwarded as an error; otherwise the body is exactly the sign-in URL built from the client id and callback URL read and the internal scopes, with the authorize endpoint as prefix |
| JsRoutes.CallbackRoute | packages/forge-viewhubs-nodejs-aws/routes/oauth.js:30-39 | the callback redirects to / iff setCode succeeds; otherwise the error is forwarded and the session is unchanged |
| JsRoutes.SignoutRoute | packages/forge-viewhubs-nodejs-aws/routes/oauth.js:60-63 | the whole session becomes null and the answer is a redirect to / |
| JsRoutes.TokenRoute | packages/forge-viewhubs-nodejs-aws/routes/oauth.js:66-79 | the answer is 401 iff the session is not authorized, and then nothing is called or changed; otherwise exactly the record getPublicToken produces is sent, or its error forwarded |
| JsRoutes.BaseLacksAmpersand | packages/forge-viewhubs-nodejs-aws/routes/oauth.js:48-49 | the fixed front of the URL holds no parameter separator |
| JsRoutes.ParametersShape | packages/forge-viewhubs-nodejs-aws/routes/oauth.js:50-52 | the URL is the front followed by the client_id, redirect_uri and scope parameters, each behind its own & separator |
| JsRoutes.ParametersSplit | packages/forge-viewhubs-nodejs-aws/routes/oauth.js:50-52 | splitting the URL at & gives back the front, client_id, redirect_uri and scope in this order when no value holds & |
| JsRoutes.AuthorizeUrlParameters | packages/forge-viewhubs-nodejs-aws/routes/oauth.js:47-52 | the sign-in URL splits into the authorize endpoint and the three parameters, in order |
| JsRoutes.UrlRouteParameters | packages/forge-viewhubs-nodejs-aws/routes/oauth.js:43-53 | the body the route sends splits at & into the authorize endpoint, the client id, the callback URL and the scopes that were read, in order |
| JsRoutes.ScopeParameterRoundTrip | packages/forge-viewhubs-nodejs-aws/routes/oauth.js:52 | the internal scopes joined by single spaces split back into the same list |
| JsRoutes.UnencodedClientIdAddsParameter | packages/forge-viewhubs-nodejs-aws/routes/oauth.js:50 | values are not encoded: an & in the client id yields an extra parameter |
| JsRoutes.SignoutRevokesAccess | packages/forge-viewhubs-nodejs-aws/routes/oauth.js:60-71 | after sign-out the next token request gets 401 and calls nobody |
| JsRoutes.CallbackThenToken | packages/forge-viewhubs-nodejs-aws/routes/oauth.js:33-38 | a failed callback changes nothing; a successful one with a non-empty public token passes the 401 gate |
| CsOAuth.GetAppSetting | packages/forge-viewhubs-netcore-aws/Controllers/OAuthController.cs:215-226 | in Development the variable's own value, in Production the Parameter Store value named by the variable (which alone can fail), in any other environment the empty string |
| CsOAuth.ExchangeKeys | packages/forge-viewhubs-netcore-aws/Controllers/OAuthController.cs:131-133 | the exchange is sent the client id, secret and callback URL settings; it fails iff one of the three reads fails, which only the Production branch can do |
| CsOAuth.RefreshKeys | packages/forge-viewhubs-netcore-aws/Controllers/OAuthController.cs:182-188 | a refresh is sent the client id and secret and no callback URL; it fails iff one of the two reads fails, and when the exchange settings can be read it carries the same id and secret |
| CsOAuth.CreateFromCode | packages/forge-viewhubs-netcore-aws/Controllers/OAuthController.cs:127-148 | the code is exchanged, then the internal refresh token is refreshed under ViewablesRead; TokenInternal, TokenPublic and RefreshToken (public) are stored with ExpiresAt = now + internal expires_in, and written to the cookie only on success |
| CsOAuth.Refresh | packages/forge-viewhubs-netcore-aws/Controllers/OAuthController.cs:178-194 | the stored RefreshToken is refreshed under the four internal scopes, then the new internal refresh token under ViewablesRead; all four properties change only after both calls succeed |
| CsOAuth.FromSession | packages/forge-viewhubs-netcore-aws/Controllers/OAuthController.cs:154-167 | the result is null iff the cookie collection is null or lacks ForgeApp; a refresh, and a delete and rewrite of the cookie, happen only when ExpiresAt < now, strictly; otherwise the stored credentials come back untouched |
| CsOAuth.TruncSeconds | packages/forge-viewhubs-netcore-aws/Controllers/OAuthController.cs:51 | the whole seconds in a span of ticks, truncated toward zero |
| CsOAuth.GetPublicTokenAsync | packages/forge-viewhubs-netcore-aws/Controllers/OAuthController.cs:37-53 | without credentials the status is 401 with the default record; otherwise the public token and the truncated seconds left; a failed refresh propagates |
| CsOAuth.Signout | packages/forge-viewhubs-netcore-aws/Controllers/OAuthController.cs:169-172 | sign-out deletes exactly the ForgeApp cookie |
| CsOAuth.OAuthCallback | packages/forge-viewhubs-netcore-aws/Controllers/OAuthController.cs:92-98 | the redirect to / happens iff the credentials were created; the cookie effects are those of CreateFromCode |
| CsOAuth.AppSettingIgnoresStoreOutsideProduction | packages/forge-viewhubs-netcore-aws/Controllers/OAuthController.cs:217-225 | outside Production the Parameter Store is never consulted and the lookup cannot fail |
| CsOAuth.ExpiryIsStrict | packages/forge-viewhubs-netcore-aws/Controllers/OAuthController.cs:159 | credentials expiring exactly now come back untouched; one tick later they are refreshed |
| CsOAuth.RefreshRewritesCookie | packages/forge-viewhubs-netcore-aws/Controllers/OAuthController.cs:159-164 | a successful refresh replaces the stored cookie with the new credentials, leaves other cookies alone, and a failed one writes nothing |
| CsOAuth.SignoutRevokesAccess | packages/forge-viewhubs-netcore-aws/Controllers/OAuthController.cs:169-172 | after sign-out the token endpoint answers 401 with the default record and calls nobody |
| CsOAuth.TruncWholeSeconds | packages/forge-viewhubs-netcore-aws/Controllers/OAuthController.cs:51 | a whole number of seconds' worth of ticks converts back to exactly that number |
| CsOAuth.CreateThenRead | packages/forge-viewhubs-netcore-aws/Controllers/OAuthController.cs:143 | reading right after redeeming a code returns the new public token with exactly the internal response's lifetime, and with non-negative lifetimes triggers no refresh |
| Variants.TokensAgreeExpiryDiffers | packages/forge-viewhubs-netcore-aws/Controllers/OAuthController.cs:140-143 | for the same answers, JavaScript and C# store the same three tokens, but JavaScript dates the expiry from the public response and C# from the internal one |
| Variants.RoundingVersusTruncation | packages/forge-viewhubs-netcore-aws/Controllers/OAuthController.cs:51 | JavaScript's rounded seconds and C#'s truncated seconds differ by at most one, upwards for future expiry and downwards for past expiry |
| Variants.RoundingExamples | packages/forge-viewhubs-netcore-aws/Controllers/OAuthController.cs:51 | at 1.5 s left JavaScript says 2 and C# says 1; at -1.7 s JavaScript says -2 and C# says -1 |
| Variants.SameExpiryRule | packages/forge-viewhubs-netcore-aws/Controllers/OAuthController.cs:157-160 | given the same time left before expiry (milliseconds in JavaScript, ticks in C#), the JavaScript getPublicToken and the C# FromSessionAsync call the authorization service in exactly the same cases |
| Variants.ExchangeScenario | packages/autodesk.forge.bim360.aws-cloudformation.nodejs/routes/common/oauth.js:73-84 | redeeming ABC123 against a stub answering INT1/REF1/3600 and PUB1/REF2/1800 stores INT1, PUB1 and REF2 in both versions, expiring 1800 s ahead in JavaScript and 3600 s ahead in C# |

## Left out

- The Forge SDK's HTTP calls (`AuthClientThreeLegged.getToken` and `refreshToken`, `ThreeLeggedApi.GettokenAsync` and `RefreshtokenAsync`) are foreign code. They are the uninterpreted `exchange` and `refresh` of `AuthService`. Any answer, success or failure, is allowed.
- The loosely typed SDK responses are assumed to carry all three fields. A response with a missing field is not modelled.
- `GetOAuthURLAsync` in C# builds its URL inside `ThreeLeggedApi.Authorize`, a library that is not part of this model.
- `GetClientIdAsync` only forwards `GetAppSetting("FORGE_CLIENT_ID")`, which is modelled.
- `GetForgeKeysSSM`, the AWS Parameter Store read, is I/O. It is the `ssm` function of `Environment` and may fail.
- The JavaScript configuration modules, which supply the scope lists and client settings, are I/O. They are the `Config` parameter. Each read is assumed to give the same answer, so the two reads within one operation agree.
- Cookie and session persistence are framework plumbing: JSON serialization, the cookie-session middleware and ASP.NET's cookie collections. The session is a plain record and the cookie jar a map of decoded credentials. `Reload` states the middleware's behaviour of handing a fresh, empty session to the request after sign-out.
- Routing, `res.redirect`, `res.end`, `next(err)` and `Redirect` are reduced to the outcomes they produce. Status 200 for a normal C# answer is ASP.NET's default.
- Real clocks are left out. Time is an integer parameter, and each operation reads the clock once. The source reads it up to three times per request, for example in `_isExpired`, in `setCode` and in `_expiresIn`.
- The overflow handling of `Date.setSeconds` is left out. For integer lifetimes, `setSeconds(getSeconds() + e)` is modelled as adding `1000 * e` milliseconds.
- Races between concurrent requests that refresh the same session are concurrency, not logic. The last write wins.
- JsOAuth.RoundSeconds: computes with exact integers rather than IEEE doubles, so rounding errors of the double division for spans beyond 2^53 milliseconds are not modelled.
- CsOAuth.TruncSeconds: the `(int)` cast of an out-of-range `TotalSeconds` is not modelled. Its result is unspecified in C#, and the model gives the unbounded quotient.
- JsRoutes.AuthorizeUrl: an undefined client id or callback URL would be concatenated as the text "undefined". The model takes the settings as strings.
- JsRoutes.CallbackRoute: an absent `code` query parameter is not modelled. The code is always a string handed to the service.
- JsRoutes.CallbackRoute: the route calls the `OAuth` class of its own package (`./common/oauth`), which is not part of this model. The model calls `JsOAuth.SetCode` instead and assumes the two classes behave alike. `CallbackThenToken` rests on the same assumption.
- JsRoutes.TokenRoute: the route calls `isAuthorized` and `getPublicToken` of its own package's `OAuth` class, which is not part of this model. The model uses `JsOAuth` instead and assumes the two classes behave alike. `SignoutRevokesAccess` rests on the same assumption.
- CsOAuth.CreateFromCode: the source calls `GetAppSetting` again before each upstream call, and in Production each call is a Parameter Store read that may throw. The model reads the settings once per action, so all reads within one action agree. The refresh keys are derived from the exchange keys. A failed read after the code was redeemed is therefore not modelled.
- CsOAuth.Refresh: the source reads the client id and secret separately before each of its two refresh calls. The model reads them once, so both calls get the same keys. A read that fails between the two calls is not modelled.
