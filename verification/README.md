# CitizenID Passport strategy — Dafny model

This project models the decision logic of the CitizenID authentication strategy for Passport, found in `src/index.ts`. The strategy drives an OpenID Connect authorization-code flow against CitizenID. It does five things:

- **Option resolution** (`StrategyOptions`): the constructor defaults the three endpoints. It forces `openid` into the scope list, and turns PKCE and the CSRF `state` parameter on unless the caller set them.
- **Token-exchange interception** (`TokenExchange`): it observes the generic code-for-token exchange. It records the `id_token` from a successful response and forwards the outcome unaltered.
- **Profile source selection** (`ProfileSelection`): it takes the profile from the captured ID token when that decodes to a claim set. Otherwise it makes one userinfo request, which can fail in two ways: a transport error or a parse error.
- **Profile normalisation** (`ProfileNormalizer`): it maps a claim set to the profile record. Its rules cover defaults, the string-or-array role claim, optional fields, and the `urn:user:` custom claims.
- **Authorization parameters** (`AuthorizationParams`): it maps camelCase options to snake_case query parameters.

`Authentication` composes the exchange and the profile step into one attempt.

Values are JavaScript values (`JsValues.JsValue`). An omitted option or claim reads as `Undefined`. The truthiness that `||` and `if (x)` apply is the explicit predicate `JsValues.Truthy`. So `""`, `0`, `NaN`, `false`, `null` and `undefined` all count as absent: an empty `preferred_username` yields `""`, an empty `email` adds no entry, and `maxAge: 0` is not sent.

Three foreign calls are parameters of the model, not code:

- `jwt.decode` (no signature verification is done);
- the userinfo GET;
- `JSON.parse`.

Each is a function returning an abstract outcome.

## Model

| member | source | states |
|---|---|---|
| `StrategyOptions.ResolveScope` | src/index.ts:227-233 | The scope always contains `openid`. A falsy scope gives `openid, profile, email`. A non-array is wrapped into one element. A list without `openid` gets it prepended with the other entries in order; a list with it is unchanged. |
| `StrategyOptions.ResolveOptions` | src/index.ts:222-243 | Each endpoint is the caller's value if truthy, else the canonical CitizenID URL. `pkce` and `state` become `true` exactly when they were `undefined`; otherwise, even when `false` or `null`, the caller's value is kept. Client id, secret, callback and other options pass through. |
| `StrategyOptions.Construct` | src/index.ts:217-257 | The strategy is named `citizenid`. It keeps the resolved options, and its userinfo endpoint is the resolved one (the caller's if truthy, else the default). |
| `StrategyOptions.ResolveOptionsEstablishesInvariant` | src/index.ts:222-243 | After resolution, for every input: endpoints are truthy, `openid` is in the scope, and neither flag is `undefined`. |
| `StrategyOptions.ResolveOptionsIdempotent` | src/index.ts:222-243 | Resolving an already-resolved configuration changes nothing. |
| `StrategyOptions.ScopeKeepsCallerEntries` | src/index.ts:231-233 | For an array scope, `openid` is added at most once: it occurs once if it was absent and as often as before if present. With `openid` prepended, the rest of the list is exactly the caller's list. Every caller entry is kept. |
| `StrategyOptions.EmptyScopeArrayGivesOpenIdOnly` | src/index.ts:227-233 | An empty array is truthy, so it is not replaced by the default and resolves to `["openid"]`. |
| `StrategyOptions.DefaultsForMinimalOptions` | src/index.ts:222-243 | With every optional option omitted, the scope is `openid, profile, email` with `openid` first. All three endpoints are the defaults, and PKCE and state are on. |
| `StrategyOptions.ExplicitFalseFlagsKept` | src/index.ts:236-243 | `pkce: false` stays `false` and `state: null` stays `null`: only `undefined` is defaulted. |
| `ProfileNormalizer.NormalizeProfile` | src/index.ts:323-370 | Provider is `citizenid`; `id` is `sub`; `_raw` and `_json` are the given raw value and claim set. `username` is `preferred_username` or `""`. `displayName` is `name`, else `preferred_username`, else `""`. One email iff `email` is present, `verified` defaulting to `false`. Roles are `[role]`, the role array itself, or empty. Photos and authorization id exist iff their claims are present. Custom claims are defined iff some key has the `urn:user:` prefix, and then hold exactly those keys with their values. |
| `ProfileNormalizer.CollectCustomClaims` | src/index.ts:359-364 | Given any key list that contains every own key, and whose prefixed keys are all own keys (as `Object.keys` gives for objects, arrays and strings), the loop collects exactly the own keys with the `urn:user:` prefix, each with its original value. |
| `ProfileNormalizer.NormalizeConforms` | src/index.ts:11-52 | A claim set of the declared user-info shape gives a profile of the declared profile shape. Given a string raw value, every field is a string where a string is declared (including `_raw`), the role list holds only strings, and each `verified` is a boolean. |
| `ProfileNormalizer.NoCustomClaimsWithoutPrefix` | src/index.ts:357-367 | Without any `urn:user:` key, the profile has no custom-claims record at all. |
| `ProfileNormalizer.FullClaimSetExample` | src/index.ts:324-346 | `{sub:"u1", name:"Ada", email:"a@x.com", email_verified:true, role:["admin","pilot"]}` normalises to id `u1`, display name `Ada`, one verified email and roles `admin, pilot`. |
| `ProfileNormalizer.MinimalClaimSetExample` | src/index.ts:324-367 | `{sub:"u2"}` normalises to id `u2`, empty username and display name, no emails, no roles, no photos, no authorization id and no custom claims. |
| `ProfileNormalizer.EmptyClaimsCountAsAbsent` | src/index.ts:327-346 | For every claim set whose `email`, `preferred_username` and `role` are empty strings, these count as absent. There are no emails, the username is `""` and there are no roles. The display name is `""` unless `name` is truthy. |
| `TokenExchange.InterceptExchange` | src/index.ts:380-396 | The callback receives exactly the underlying outcome: an error unchanged, or the access token, refresh token and params unaltered. The captured token changes only on a success whose params carry a truthy `id_token`, and then becomes that token. A captured token is always absent or truthy. |
| `TokenExchange.FailureCapturesNothing` | src/index.ts:384-387 | An exchange error is forwarded unchanged and leaves the captured token as it was. |
| `TokenExchange.MissingIdTokenKeepsPrevious` | src/index.ts:389-392 | Any successful response whose parameters carry no truthy `id_token` keeps the previously captured token. |
| `ProfileSelection.FetchProfile` | src/index.ts:294-312 | Exactly one request is made, to the userinfo endpoint with the access token. A transport error gives "Failed to fetch user profile" with the error as cause. A body that fails to parse gives "Failed to parse user profile" with the syntax error as cause. A body that parses to `null` or `undefined` gives the same message with the TypeError of reading `sub` as cause. A body that parses to any other value gives exactly the normalised parsed claims, with the body as raw, and only then is the result `Ok`. |
| `ProfileSelection.UserProfile` | src/index.ts:277-313 | At most one userinfo request. None is made iff a captured token decodes to a truthy claim set, and then the profile is that claim set normalised with the token as raw. Otherwise the result is the userinfo fallback. Every error comes from the fallback, never from decoding. |
| `ProfileSelection.DecodeFailureFallsBack` | src/index.ts:280-295 | A captured token whose decoding throws or yields `null` leads to one userinfo request. |
| `ProfileSelection.TransportFailureScenario` | src/index.ts:295-300 | With no captured token and a transport failure, the attempt ends with the fetch error wrapping that cause. |
| `AuthorizationParams.AuthorizationParams` | src/index.ts:405-434 | Each of `nonce`, `response_mode`, `prompt`, `max_age` and `ui_locales` is a key of the result iff its camelCase option is truthy, and then maps to that option's value. No other key appears. |
| `AuthorizationParams.EmptyOptionsGiveNoParams` | src/index.ts:405-434 | Empty options give an empty parameter map. |
| `AuthorizationParams.MaxAgeZeroOmitted` | src/index.ts:423-426 | `maxAge: 0` sends no `max_age`, while `maxAge: 300` sends exactly `max_age: 300`. |
| `AuthorizationParams.UnrelatedOptionsIgnored` | src/index.ts:405-434 | Changing any option other than the five supported ones leaves the parameters unchanged. |
| `Authentication.InstanceAttempt` | src/index.ts:277-396 | The attempt as written on one instance. An exchange error ends it with that error and the token left as it was. A success leaves this response's `id_token` on the instance when it carries one, and the earlier token otherwise. It then runs the profile step on that token. The step makes no request iff the token decodes, and then yields the token's normalised claims. Otherwise it is the userinfo fallback with this attempt's access token. The captured token stays absent or truthy. |
| `Authentication.StaleIdTokenReused` | src/index.ts:389-392 | As written: if the instance still holds a usable token from an earlier attempt and this response has no `id_token`, the profile comes from the old token and no userinfo request is made. |
| `Authentication.StaleIdTokenExample` | src/index.ts:389-392 | As written: user A's attempt captures `tokenA`. User B's next attempt, whose response has no `id_token`, yields a profile with id `userA`. |
| `Authentication.Attempt` | src/index.ts:277-396 | One attempt with its own hand-off state. It is rejected iff the exchange failed, with that error. A profile taken without a userinfo request always comes from this attempt's own `id_token`. When this attempt's `id_token` decodes, no request is made and the profile is its normalised claims. When it does not decode, the result is the userinfo fallback. A response without an ID token leads to exactly one request, to the strategy's userinfo endpoint with this attempt's access token, and the result is that fallback's result. So an earlier attempt's token can never supply the profile. |
| `Authentication.AttemptIgnoresEarlierAttempts` | src/index.ts:389-392 | When the response carries an ID token, the result is the same whatever token an earlier attempt left on the instance. |
| `Authentication.NoIdTokenMeansOneUserInfoRequest` | src/index.ts:294-295 | With the default userinfo endpoint, a response without an ID token leads to exactly one request, to `https://citizenid.space/connect/userinfo`. |

## Left out

- StrategyOptions.Construct: has no error case for a missing client identifier. `src/index.ts` never checks `clientID` itself. Any such throw would come from the generic OAuth2 strategy's constructor, called at line 249, which is not part of this model.
- In-place mutation: the constructor changes the caller's `options` object and scope array. The model returns a new record instead.
- `useAuthorizationHeaderforGET` (line 256): the model records the access token of each userinfo request. It does not model how the token travels.
- The generic OAuth2 strategy's internals, including the actual code exchange, PKCE, state storage and HTTP transport. These are abstract outcomes (`ExchangeOutcome`, `FetchOutcome`).
- Sequencing: the generic OAuth2 strategy runs the exchange and then the profile step. `Authentication` models this ordering as plain composition.
- Authentication.InstanceAttempt: assumes two things the generic OAuth2 strategy (not part of this model) is not shown to do. First, it routes each token exchange through this class's `getOAuthAccessToken` override. Second, it calls `userProfile` later on the same object across attempts. If the framework instead exchanges codes through its OAuth2 client directly, no ID token is ever captured. If it runs each request on a fresh per-request object, the captured token does not outlive the request.
- ProfileSelection.FetchProfile: treats every reported transport error as a failure, and `TokenExchange.InterceptExchange` does the same for exchange errors. The source tests `if (err)` (lines 296 and 385), so a falsy error value would take the success path there. The model assumes the collaborators report errors as truthy values.
- Foreign calls: `jwt.decode` and `JSON.parse` are function parameters returning abstract outcomes. Signature verification is not done by the source either.
- Callback exceptions: `done` is called inside the `try` blocks (lines 287 and 306). If the application's callback throws, the source falls back or reports a parse error and calls `done` a second time. The application's callback is not modelled.
- Concurrency: interleaving of attempts on one instance is not modelled. Only sequential reuse of the instance field is modelled (see Findings).
- The verify callback, `passReqToCallback` and `module.exports` plumbing (lines 437-442) have no decision logic.
- `JsValues.Get`: only an object's own data properties are modelled. Of the keys the strategy reads, only `sub` is an inherited property of any other kind of value. Strings inherit the legacy `String.prototype.sub` method.
- ProfileNormalizer.NormalizeProfile: for a claim set that is a string primitive, the model gives `id` as `Undefined`. The source gives the inherited `String.prototype.sub` function, because functions are not representable here. Such a claim set arises when `jwt.decode` returns a non-JSON string payload or the userinfo body is a JSON string literal.
- Numbers are `real`, plus `NaN`. Infinities, `BigInt`, symbols and functions are not modelled. A function-valued option would be truthy, like an object.
- Custom claims and authorization parameters are maps, so the key order of the source's records is not kept. For the authorization parameters this drops the insertion order of lines 409-431, and with it the order of the query parameters.
- Repeatability of normalisation holds by construction: `NormalizeProfile` is a function, so there is no separate lemma.

## Findings

| source | as written | input that shows it | evidently intended | confidence | as-written member | corrected member |
|---|---|---|---|---|---|---|
| src/index.ts:389-392 | The captured ID token lives in an instance field that is set only when a token response carries `id_token` and is never cleared. The next attempt on the same strategy instance starts with the previous attempt's token. | Assume the generic strategy calls this class's `getOAuthAccessToken` and `userProfile` on one shared instance (see `Authentication.InstanceAttempt` under Left out). Attempt 1 gets a response with `id_token: "tokenA"` for user A. Attempt 2, for user B, gets a response without `id_token`. Its profile is user A's, decoded from `tokenA`, and no userinfo request is made with B's access token. | Each attempt hands only its own ID token to the profile step. Without one, it asks the userinfo endpoint with its own access token. | low: depends on how the framework calls the override; not executed | `Authentication.StaleIdTokenExample` | `Authentication.Attempt` |
