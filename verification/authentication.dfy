/**
 * One authentication attempt: the intercepted token exchange followed by the
 * profile step, which reads the ID token the exchange captured.
 *
 * The source keeps the captured token in a field of the strategy object
 * that is never cleared. If the framework runs successive attempts on one
 * shared object, the token survives into the next attempt.
 * `InstanceAttempt` models that; `Attempt` starts every attempt with no
 * captured token, which is what the hand-off between the two steps is for.
 */
module Authentication {
  import opened Wrappers
  import opened JsValues
  import opened StrategyOptions
  import opened TokenExchange
  import opened ProfileNormalizer
  import opened ProfileSelection

  /** How an attempt ends: the exchange was rejected, or the profile step ran. */
  datatype AttemptResult =
    | ExchangeRejected(err: JsValue)
    | ProfileStep(lookup: ProfileLookup)

  /** An attempt on an instance whose captured token is `s` when the attempt starts; returns the token left behind too. */
  function InstanceAttempt(strategy: Strategy, s: AttemptState, outcome: ExchangeOutcome,
                           decode: JsValue -> DecodeOutcome,
                           fetch: (JsValue, JsValue) -> FetchOutcome,
                           parse: string -> ParseOutcome): (r: (AttemptState, AttemptResult))
    ensures outcome.ExchangeFailed? ==> r == (s, ExchangeRejected(outcome.err))
    ensures outcome.Exchanged? ==> r.1.ProfileStep?
    ensures outcome.Exchanged? && CarriesIdToken(outcome.params) ==>
              r.0 == AttemptState(Get(outcome.params, "id_token"))
    ensures outcome.Exchanged? && !CarriesIdToken(outcome.params) ==> r.0 == s
    ensures outcome.Exchanged? ==> (r.1.lookup.requests == [] <==> IdTokenUsable(r.0, decode))
    ensures outcome.Exchanged? && IdTokenUsable(r.0, decode) ==>
              r.1.lookup.result == Ok(NormalizeProfile(decode(r.0.idToken).payload, r.0.idToken))
    ensures outcome.Exchanged? && !IdTokenUsable(r.0, decode) ==>
              r.1.lookup == FetchProfile(strategy.userInfoURL, outcome.accessToken, fetch, parse)
    ensures WellFormed(s) ==> WellFormed(r.0)
  {
    var intercepted := InterceptExchange(s, outcome);
    match intercepted.forwarded
    case ExchangeFailed(err) => (intercepted.state, ExchangeRejected(err))
    case Exchanged(accessToken, _, _) =>
      (intercepted.state,
       ProfileStep(UserProfile(intercepted.state, strategy.userInfoURL, accessToken, decode, fetch, parse)))
  }

  /**
   * As written, an attempt whose token response carries no ID token takes the
   * profile from the token an earlier attempt left on the instance, without
   * asking the userinfo endpoint with this attempt's access token.
   */
  lemma StaleIdTokenReused(strategy: Strategy, s: AttemptState, accessToken: JsValue, refreshToken: JsValue,
                           params: JsValue,
                           decode: JsValue -> DecodeOutcome,
                           fetch: (JsValue, JsValue) -> FetchOutcome,
                           parse: string -> ParseOutcome)
    requires IdTokenUsable(s, decode)
    requires !CarriesIdToken(params)
    ensures var r := InstanceAttempt(strategy, s, Exchanged(accessToken, refreshToken, params), decode, fetch, parse);
            && r.1.ProfileStep? && r.1.lookup.requests == []
            && r.1.lookup.result == Ok(NormalizeProfile(decode(s.idToken).payload, s.idToken))
  {
  }

  /** User A's claims, carried by the token `tokenA`. */
  const ClaimsA: JsValue := Obj(map["sub" := Str("userA")])

  /** Decodes `tokenA` to user A's claims and every other token to `null`. */
  function DecodeA(t: JsValue): DecodeOutcome {
    if t == Str("tokenA") then Decoded(ClaimsA) else Decoded(Null)
  }

  /** A userinfo endpoint that answers for user B. */
  function FetchB(url: JsValue, accessToken: JsValue): FetchOutcome {
    Fetched("userB")
  }

  function ParseB(body: string): ParseOutcome {
    Parsed(Obj(map["sub" := Str("userB")]))
  }

  /** The first attempt's token response carries `tokenA`; the second's carries no ID token. */
  const FirstExchange: ExchangeOutcome := Exchanged(Str("accessA"), Undefined, Obj(map["id_token" := Str("tokenA")]))
  const SecondExchange: ExchangeOutcome := Exchanged(Str("accessB"), Undefined, Obj(map[]))

  /** The first attempt leaves user A's token on the instance. */
  lemma FirstAttemptCapturesTokenA(strategy: Strategy)
    ensures InstanceAttempt(strategy, NoIdToken, FirstExchange, DecodeA, FetchB, ParseB).0 == AttemptState(Str("tokenA"))
  {
    assert Get(FirstExchange.params, "id_token") == Str("tokenA");
  }

  /**
   * A concrete case: the first attempt captures user A's token; the second,
   * whose token response has no ID token, yields user A's profile.
   */
  lemma StaleIdTokenExample(strategy: Strategy)
    ensures var first := InstanceAttempt(strategy, NoIdToken, FirstExchange, DecodeA, FetchB, ParseB);
            var second := InstanceAttempt(strategy, first.0, SecondExchange, DecodeA, FetchB, ParseB);
            && second.1.ProfileStep?
            && second.1.lookup.result.Ok?
            && second.1.lookup.result.value.id == Str("userA")
  {
    FirstAttemptCapturesTokenA(strategy);
    var tokenA := AttemptState(Str("tokenA"));
    assert IdTokenUsable(tokenA, DecodeA);
    StaleIdTokenReused(strategy, tokenA, Str("accessB"), Undefined, Obj(map[]), DecodeA, FetchB, ParseB);
    assert Get(ClaimsA, "sub") == Str("userA");
  }

  /** One attempt with its own hand-off state: nothing is captured before its exchange. */
  function Attempt(strategy: Strategy, outcome: ExchangeOutcome,
                   decode: JsValue -> DecodeOutcome,
                   fetch: (JsValue, JsValue) -> FetchOutcome,
                   parse: string -> ParseOutcome): (r: AttemptResult)
    ensures outcome.ExchangeFailed? <==> r.ExchangeRejected?
    ensures outcome.ExchangeFailed? ==> r.err == outcome.err
    ensures r.ProfileStep? && r.lookup.requests == [] ==>
              && outcome.Exchanged? && CarriesIdToken(outcome.params)
              && r.lookup.result.Ok?
              && r.lookup.result.value.raw == Get(outcome.params, "id_token")
    ensures outcome.Exchanged? && !CarriesIdToken(outcome.params) ==>
              r == ProfileStep(FetchProfile(strategy.userInfoURL, outcome.accessToken, fetch, parse))
    ensures outcome.Exchanged? && CarriesIdToken(outcome.params) ==>
              var token := Get(outcome.params, "id_token");
              && (IdTokenUsable(AttemptState(token), decode) ==>
                    && r.lookup.requests == []
                    && r.lookup.result == Ok(NormalizeProfile(decode(token).payload, token)))
              && (!IdTokenUsable(AttemptState(token), decode) ==>
                    r.lookup == FetchProfile(strategy.userInfoURL, outcome.accessToken, fetch, parse))
  {
    InstanceAttempt(strategy, NoIdToken, outcome, decode, fetch, parse).1
  }

  /**
   * When the response carries an ID token, the attempt's result is the same
   * whatever token an earlier attempt left on the instance.
   */
  lemma AttemptIgnoresEarlierAttempts(strategy: Strategy, s: AttemptState, outcome: ExchangeOutcome,
                                      decode: JsValue -> DecodeOutcome,
                                      fetch: (JsValue, JsValue) -> FetchOutcome,
                                      parse: string -> ParseOutcome)
    ensures outcome.Exchanged? && CarriesIdToken(outcome.params) ==>
              Attempt(strategy, outcome, decode, fetch, parse) ==
              InstanceAttempt(strategy, s, outcome, decode, fetch, parse).1
  {
  }

  /** A token response without an ID token leads to exactly one userinfo request, on the configured endpoint. */
  lemma NoIdTokenMeansOneUserInfoRequest(options: StrategyOptions, accessToken: JsValue, refreshToken: JsValue,
                                         params: JsValue,
                                         decode: JsValue -> DecodeOutcome,
                                         fetch: (JsValue, JsValue) -> FetchOutcome,
                                         parse: string -> ParseOutcome)
    requires !Truthy(options.userInfoURL)
    requires !CarriesIdToken(params)
    ensures var r := Attempt(Construct(options), Exchanged(accessToken, refreshToken, params), decode, fetch, parse);
            r.ProfileStep? && r.lookup.requests == [UserInfoRequest(Str(DefaultUserInfoURL), accessToken)]
  {
  }
}
