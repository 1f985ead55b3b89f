/**
 * Option resolution done by the strategy's constructor: endpoint defaults,
 * the scope list that always carries `openid`, and the PKCE and state flags
 * that are on unless the caller set them.
 */
module StrategyOptions {
  import opened JsValues

  const DefaultAuthorizationURL: string := "https://citizenid.space/connect/authorize"
  const DefaultTokenURL: string := "https://citizenid.space/connect/token"
  const DefaultUserInfoURL: string := "https://citizenid.space/connect/userinfo"

  const OpenId: JsValue := Str("openid")
  const DefaultScope: seq<JsValue> := [Str("openid"), Str("profile"), Str("email")]

  /** The strategy's name as registered with the authentication framework. */
  const StrategyName: string := "citizenid"

  /**
   * The options a caller passes. Every option the caller omits is `Undefined`;
   * `extra` holds the remaining keys (`store`, `passReqToCallback`, ...), which
   * are handed on to the generic OAuth2 strategy untouched.
   */
  datatype StrategyOptions = StrategyOptions(
    clientID: JsValue,
    clientSecret: JsValue,
    callbackURL: JsValue,
    scope: JsValue,
    authorizationURL: JsValue,
    tokenURL: JsValue,
    userInfoURL: JsValue,
    pkce: JsValue,
    state: JsValue,
    extra: map<string, JsValue>)

  /** The options after the constructor's defaulting; the scope is now a list. */
  datatype ResolvedOptions = ResolvedOptions(
    clientID: JsValue,
    clientSecret: JsValue,
    callbackURL: JsValue,
    scope: seq<JsValue>,
    authorizationURL: JsValue,
    tokenURL: JsValue,
    userInfoURL: JsValue,
    pkce: JsValue,
    state: JsValue,
    extra: map<string, JsValue>)

  /** A constructed strategy: its name, its resolved options and the userinfo endpoint it keeps. */
  datatype Strategy = Strategy(name: string, options: ResolvedOptions, userInfoURL: JsValue)

  /** `Array.isArray(v) ? v : [v]`. */
  function AsList(v: JsValue): seq<JsValue> {
    if v.Arr? then v.items else [v]
  }

  /**
   * The scope list: the caller's scope when truthy, else the default three;
   * a non-array wrapped into a one-element list; `openid` put first when it
   * is missing, and the list left as it is when it is already there.
   */
  function ResolveScope(scope: JsValue): (r: seq<JsValue>)
    ensures OpenId in r
    ensures !Truthy(scope) ==> r == DefaultScope
    ensures scope.Arr? && OpenId in scope.items ==> r == scope.items
    ensures scope.Arr? && OpenId !in scope.items ==> r == [OpenId] + scope.items
    ensures Truthy(scope) && !scope.Arr? && scope == OpenId ==> r == [OpenId]
    ensures Truthy(scope) && !scope.Arr? && scope != OpenId ==> r == [OpenId, scope]
  {
    var list := AsList(Or(scope, Arr(DefaultScope)));
    if OpenId in list then list else [OpenId] + list
  }

  /** `value === undefined ? true : value`, the rule for the PKCE and state flags. */
  function DefaultOn(flag: JsValue): (r: JsValue)
    ensures !r.Undefined?
    ensures flag.Undefined? ==> r == Bool(true)
    ensures !flag.Undefined? ==> r == flag
  {
    if flag.Undefined? then Bool(true) else flag
  }

  /** The defaulting the constructor applies to the caller's options. */
  function ResolveOptions(o: StrategyOptions): (r: ResolvedOptions)
    ensures Truthy(o.authorizationURL) ==> r.authorizationURL == o.authorizationURL
    ensures !Truthy(o.authorizationURL) ==> r.authorizationURL == Str(DefaultAuthorizationURL)
    ensures Truthy(o.tokenURL) ==> r.tokenURL == o.tokenURL
    ensures !Truthy(o.tokenURL) ==> r.tokenURL == Str(DefaultTokenURL)
    ensures Truthy(o.userInfoURL) ==> r.userInfoURL == o.userInfoURL
    ensures !Truthy(o.userInfoURL) ==> r.userInfoURL == Str(DefaultUserInfoURL)
    ensures r.scope == ResolveScope(o.scope)
    ensures o.pkce.Undefined? ==> r.pkce == Bool(true)
    ensures !o.pkce.Undefined? ==> r.pkce == o.pkce
    ensures o.state.Undefined? ==> r.state == Bool(true)
    ensures !o.state.Undefined? ==> r.state == o.state
    ensures r.clientID == o.clientID && r.clientSecret == o.clientSecret
    ensures r.callbackURL == o.callbackURL && r.extra == o.extra
  {
    ResolvedOptions(
      clientID := o.clientID,
      clientSecret := o.clientSecret,
      callbackURL := o.callbackURL,
      scope := ResolveScope(o.scope),
      authorizationURL := Or(o.authorizationURL, Str(DefaultAuthorizationURL)),
      tokenURL := Or(o.tokenURL, Str(DefaultTokenURL)),
      userInfoURL := Or(o.userInfoURL, Str(DefaultUserInfoURL)),
      pkce := DefaultOn(o.pkce),
      state := DefaultOn(o.state),
      extra := o.extra)
  }

  /** The constructor: resolve the options, name the strategy, keep the userinfo endpoint. */
  function Construct(o: StrategyOptions): (s: Strategy)
    ensures s.name == StrategyName
    ensures s.options == ResolveOptions(o)
    ensures s.userInfoURL == s.options.userInfoURL
    ensures Truthy(o.userInfoURL) ==> s.userInfoURL == o.userInfoURL
    ensures !Truthy(o.userInfoURL) ==> s.userInfoURL == Str(DefaultUserInfoURL)
  {
    var resolved := ResolveOptions(o);
    Strategy(StrategyName, resolved, resolved.userInfoURL)
  }

  /** What every resolved configuration satisfies. */
  predicate Resolved(r: ResolvedOptions) {
    && Truthy(r.authorizationURL) && Truthy(r.tokenURL) && Truthy(r.userInfoURL)
    && OpenId in r.scope
    && !r.pkce.Undefined? && !r.state.Undefined?
  }

  /** A resolved configuration handed back to the constructor as plain options. */
  function AsOptions(r: ResolvedOptions): StrategyOptions {
    StrategyOptions(r.clientID, r.clientSecret, r.callbackURL, Arr(r.scope),
                    r.authorizationURL, r.tokenURL, r.userInfoURL, r.pkce, r.state, r.extra)
  }

  /** Resolution establishes the configuration invariant for every input. */
  lemma ResolveOptionsEstablishesInvariant(o: StrategyOptions)
    ensures Resolved(ResolveOptions(o))
  {
  }

  /** Resolving a configuration that already satisfies the invariant changes nothing. */
  lemma ResolveOptionsIdempotent(r: ResolvedOptions)
    requires Resolved(r)
    ensures ResolveOptions(AsOptions(r)) == r
  {
  }

  /**
   * `openid` occurs once more than before when it was missing and as often as
   * before otherwise: nothing is dropped, nothing reordered, no duplicate added.
   */
  lemma ScopeKeepsCallerEntries(scope: JsValue)
    requires scope.Arr?
    ensures multiset(ResolveScope(scope))[OpenId] ==
            if OpenId in scope.items then multiset(scope.items)[OpenId] else 1
    ensures OpenId !in scope.items ==> ResolveScope(scope)[1..] == scope.items
    ensures multiset(scope.items) <= multiset(ResolveScope(scope))
  {
  }

  /** An empty scope array is truthy, so it is not replaced by the default: it becomes `["openid"]`. */
  lemma EmptyScopeArrayGivesOpenIdOnly()
    ensures ResolveScope(Arr([])) == [OpenId]
  {
  }

  /** With nothing but the required options, every default applies. */
  lemma DefaultsForMinimalOptions(clientID: JsValue, callbackURL: JsValue)
    ensures var r := ResolveOptions(StrategyOptions(clientID, Undefined, callbackURL, Undefined,
                                                    Undefined, Undefined, Undefined, Undefined, Undefined, map[]));
            && r.scope == DefaultScope && r.scope[0] == OpenId
            && r.authorizationURL == Str(DefaultAuthorizationURL)
            && r.tokenURL == Str(DefaultTokenURL)
            && r.userInfoURL == Str(DefaultUserInfoURL)
            && r.pkce == Bool(true) && r.state == Bool(true)
  {
  }

  /** `pkce: false` and `state: null` are kept: only `undefined` is defaulted, not every falsy value. */
  lemma ExplicitFalseFlagsKept(o: StrategyOptions)
    requires o.pkce == Bool(false) && o.state == Null
    ensures ResolveOptions(o).pkce == Bool(false)
    ensures ResolveOptions(o).state == Null
  {
  }
}
