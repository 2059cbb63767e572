/** Vocabulary shared by the JavaScript and the C# implementations: the
    authorization service both of them call, the token record it answers
    with, and the trace of outside calls an operation makes. */
module Upstream {

  /** A value that may be null or undefined in the program. */
  datatype Option<+T> = None | Some(value: T)

  /** Why an outside call (the token endpoint, a configuration read) failed. */
  datatype Error = Error(message: string)

  /** The outcome of anything that may throw; usable with `:-`. */
  datatype Result<+T> = Ok(value: T) | Fail(error: Error) {

    predicate IsFailure() {
      Fail?
    }

    function PropagateFailure<U>(): Result<U>
      requires Fail?
    {
      Fail(error)
    }

    function Extract(): T
      requires Ok?
    {
      value
    }
  }

  /** The `{access_token, refresh_token, expires_in}` record of a successful
      token response (section 5.1 of RFC 6749); `expiresIn` is in seconds. */
  datatype Grant = Grant(accessToken: string, refreshToken: string, expiresIn: int)

  /** Application credentials handed to the token endpoint. A field is None
      where the program passes null or undefined. */
  datatype Keys = Keys(clientId: Option<string>, clientSecret: Option<string>, callbackUrl: Option<string>)

  /** The authorization service, left uninterpreted: the authorization-code
      exchange (section 4.1.3 of RFC 6749) and the refresh with a possibly
      narrower scope list (section 6 of RFC 6749). Either may fail. */
  datatype AuthService = AuthService(
    exchange: (Keys, string) -> Result<Grant>,
    refresh: (Keys, seq<string>, Option<string>) -> Result<Grant>)

  /** The service never grants a negative lifetime. */
  ghost predicate NonNegativeLifetimes(svc: AuthService) {
    && (forall k, c :: svc.exchange(k, c).Ok? ==> svc.exchange(k, c).value.expiresIn >= 0)
    && (forall k, sc, t :: svc.refresh(k, sc, t).Ok? ==> svc.refresh(k, sc, t).value.expiresIn >= 0)
  }

  /** One call to the outside world, recorded in the order it is made. */
  datatype Call =
    | FetchKeys                                                      // a read of the client settings
    | Exchange(keys: Keys, code: string)                             // code for token
    | Renew(keys: Keys, scopes: seq<string>, refreshToken: Option<string>)  // refresh for token

  /** No authorization code is redeemed anywhere in the trace. */
  predicate NoExchange(calls: seq<Call>) {
    forall i | 0 <= i < |calls| :: !calls[i].Exchange?
  }
}
