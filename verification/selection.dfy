/**
 * Profile source selection (`userProfile`): the captured ID token when it
 * decodes to a claim set, else one request to the userinfo endpoint.
 * Decoding, the HTTP request and JSON parsing are foreign calls and are
 * passed in as functions.
 */
module ProfileSelection {
  import opened Wrappers
  import opened JsValues
  import opened TokenExchange
  import opened ProfileNormalizer

  const FetchFailedMessage: string := "Failed to fetch user profile"
  const ParseFailedMessage: string := "Failed to parse user profile"

  /** What decoding a token yields: a payload (`null` for a malformed token) or a thrown error. */
  datatype DecodeOutcome = Decoded(payload: JsValue) | DecodeThrew(err: JsValue)

  /** What the userinfo request yields: a transport error or a response body. */
  datatype FetchOutcome = FetchFailed(err: JsValue) | Fetched(body: string)

  /** What parsing a body as JSON yields: a value or a syntax error. */
  datatype ParseOutcome = Parsed(value: JsValue) | ParseThrew(err: JsValue)

  /** The cause attached to a profile error. */
  datatype Cause =
    | Transport(err: JsValue)
    | Syntax(err: JsValue)
      /** The body parsed to `null`, and reading its `sub` threw a TypeError. */
    | NullClaims

  datatype ProfileError = ProfileError(message: string, cause: Cause)

  /** A userinfo request: the endpoint and the bearer token sent in the Authorization header. */
  datatype UserInfoRequest = UserInfoRequest(url: JsValue, accessToken: JsValue)

  /** The profile step's result together with the userinfo requests it made. */
  datatype ProfileLookup = ProfileLookup(result: Result<Profile, ProfileError>, requests: seq<UserInfoRequest>)

  /** A token is captured and decodes to a truthy claim set. */
  predicate IdTokenUsable(s: AttemptState, decode: JsValue -> DecodeOutcome) {
    && Truthy(s.idToken)
    && decode(s.idToken).Decoded?
    && Truthy(decode(s.idToken).payload)
  }

  /** The userinfo fallback: one request, then parsing and normalising its body. */
  function FetchProfile(userInfoURL: JsValue, accessToken: JsValue,
                        fetch: (JsValue, JsValue) -> FetchOutcome,
                        parse: string -> ParseOutcome): (r: ProfileLookup)
    ensures r.requests == [UserInfoRequest(userInfoURL, accessToken)]
    ensures r.result.Err? && r.result.error.message == FetchFailedMessage <==>
              fetch(userInfoURL, accessToken).FetchFailed?
    ensures fetch(userInfoURL, accessToken).FetchFailed? ==>
              r.result.error.cause == Transport(fetch(userInfoURL, accessToken).err)
    ensures r.result.Err? && r.result.error.message == ParseFailedMessage <==>
              && fetch(userInfoURL, accessToken).Fetched?
              && var parsed := parse(fetch(userInfoURL, accessToken).body);
                 parsed.ParseThrew? || IsNullish(parsed.value)
    ensures fetch(userInfoURL, accessToken).Fetched? ==>
              var body := fetch(userInfoURL, accessToken).body;
              && (parse(body).ParseThrew? ==>
                    r.result == Err(ProfileError(ParseFailedMessage, Syntax(parse(body).err))))
              && (parse(body).Parsed? && IsNullish(parse(body).value) ==>
                    r.result == Err(ProfileError(ParseFailedMessage, NullClaims)))
              && (parse(body).Parsed? && !IsNullish(parse(body).value) ==>
                    r.result == Ok(NormalizeProfile(parse(body).value, Str(body))))
    ensures r.result.Ok? ==>
              && fetch(userInfoURL, accessToken).Fetched?
              && var body := fetch(userInfoURL, accessToken).body;
                 && parse(body).Parsed? && !IsNullish(parse(body).value)
                 && r.result.value == NormalizeProfile(parse(body).value, Str(body))
  {
    var request := UserInfoRequest(userInfoURL, accessToken);
    match fetch(userInfoURL, accessToken)
    case FetchFailed(err) =>
      ProfileLookup(Err(ProfileError(FetchFailedMessage, Transport(err))), [request])
    case Fetched(body) =>
      match parse(body)
      case ParseThrew(err) =>
        ProfileLookup(Err(ProfileError(ParseFailedMessage, Syntax(err))), [request])
      case Parsed(json) =>
        if IsNullish(json) then ProfileLookup(Err(ProfileError(ParseFailedMessage, NullClaims)), [request])
        else ProfileLookup(Ok(NormalizeProfile(json, Str(body))), [request])
  }

  /** `userProfile(accessToken, done)` for the given captured state. */
  function UserProfile(s: AttemptState, userInfoURL: JsValue, accessToken: JsValue,
                       decode: JsValue -> DecodeOutcome,
                       fetch: (JsValue, JsValue) -> FetchOutcome,
                       parse: string -> ParseOutcome): (r: ProfileLookup)
    ensures |r.requests| <= 1
    ensures r.requests == [] <==> IdTokenUsable(s, decode)
    ensures IdTokenUsable(s, decode) ==>
              r.result == Ok(NormalizeProfile(decode(s.idToken).payload, s.idToken))
    ensures !IdTokenUsable(s, decode) ==> r == FetchProfile(userInfoURL, accessToken, fetch, parse)
    ensures r.result.Err? ==> r.requests == [UserInfoRequest(userInfoURL, accessToken)]
  {
    if IdTokenUsable(s, decode) then
      ProfileLookup(Ok(NormalizeProfile(decode(s.idToken).payload, s.idToken)), [])
    else
      FetchProfile(userInfoURL, accessToken, fetch, parse)
  }

  /** A token that fails to decode is not an error: the userinfo endpoint is asked instead. */
  lemma DecodeFailureFallsBack(s: AttemptState, userInfoURL: JsValue, accessToken: JsValue,
                               decode: JsValue -> DecodeOutcome,
                               fetch: (JsValue, JsValue) -> FetchOutcome,
                               parse: string -> ParseOutcome)
    requires Truthy(s.idToken)
    requires decode(s.idToken).DecodeThrew? || decode(s.idToken).payload == Null
    ensures UserProfile(s, userInfoURL, accessToken, decode, fetch, parse).requests ==
            [UserInfoRequest(userInfoURL, accessToken)]
  {
  }

  /** A transport failure ends the attempt with the fetch error and no profile. */
  lemma TransportFailureScenario(userInfoURL: JsValue, accessToken: JsValue,
                                 decode: JsValue -> DecodeOutcome, cause: JsValue,
                                 parse: string -> ParseOutcome)
    ensures UserProfile(NoIdToken, userInfoURL, accessToken, decode, (u, t) => FetchFailed(cause), parse).result ==
            Err(ProfileError(FetchFailedMessage, Transport(cause)))
  {
  }
}
