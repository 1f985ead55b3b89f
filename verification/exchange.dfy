/**
 * Token-exchange interception: the generic code-for-token exchange is
 * observed, its ID token recorded, and its outcome passed on unaltered.
 */
module TokenExchange {
  import opened JsValues

  /** The state the exchange leaves for the profile step: the captured ID token, `Undefined` if none. */
  datatype AttemptState = AttemptState(idToken: JsValue)

  const NoIdToken: AttemptState := AttemptState(Undefined)

  /** What the generic exchange reports to its callback. */
  datatype ExchangeOutcome =
    | ExchangeFailed(err: JsValue)
    | Exchanged(accessToken: JsValue, refreshToken: JsValue, params: JsValue)

  /** The intercepted exchange: the state afterwards and what is forwarded to the caller's callback. */
  datatype Intercepted = Intercepted(state: AttemptState, forwarded: ExchangeOutcome)

  /** `params && params.id_token`: the token response carries a truthy ID token. */
  predicate CarriesIdToken(params: JsValue) {
    Truthy(params) && Truthy(Get(params, "id_token"))
  }

  /** A captured ID token is either absent or truthy: only truthy tokens are ever stored. */
  predicate WellFormed(s: AttemptState) {
    s.idToken.Undefined? || Truthy(s.idToken)
  }

  /** The overridden `getOAuthAccessToken`, given the generic exchange's outcome. */
  function InterceptExchange(s: AttemptState, outcome: ExchangeOutcome): (r: Intercepted)
    ensures r.forwarded == outcome
    ensures r.state != s ==> outcome.Exchanged? && CarriesIdToken(outcome.params)
    ensures outcome.Exchanged? && CarriesIdToken(outcome.params) ==>
              r.state.idToken == Get(outcome.params, "id_token")
    ensures WellFormed(s) ==> WellFormed(r.state)
  {
    match outcome
    case ExchangeFailed(_) => Intercepted(s, outcome)
    case Exchanged(_, _, params) =>
      if CarriesIdToken(params) then Intercepted(AttemptState(Get(params, "id_token")), outcome)
      else Intercepted(s, outcome)
  }

  /** An exchange failure reaches the callback unchanged and captures nothing. */
  lemma FailureCapturesNothing(s: AttemptState, err: JsValue)
    ensures InterceptExchange(s, ExchangeFailed(err)) == Intercepted(s, ExchangeFailed(err))
  {
  }

  /** Any token response without a truthy `id_token` leaves the captured token as it was. */
  lemma MissingIdTokenKeepsPrevious(s: AttemptState, accessToken: JsValue, refreshToken: JsValue, params: JsValue)
    requires !CarriesIdToken(params)
    ensures InterceptExchange(s, Exchanged(accessToken, refreshToken, params)).state == s
  {
  }
}
