/**
 * Profile normalisation: the total map from a claim set (decoded from the ID
 * token or parsed from the userinfo response) to the profile handed to the
 * application.
 */
module ProfileNormalizer {
  import opened Wrappers
  import opened JsValues

  const Provider: string := "citizenid"

  /** Claims whose name starts with this are collected as custom claims. */
  const CustomClaimPrefix: string := "urn:user:"

  datatype Email = Email(value: JsValue, verified: JsValue)

  datatype Photo = Photo(value: JsValue)

  /**
   * The normalised profile. The optional fields of the source's profile are
   * `None` when the source never sets the property.
   */
  datatype Profile = Profile(
    provider: string,
    id: JsValue,
    username: JsValue,
    displayName: JsValue,
    emails: seq<Email>,
    roles: seq<JsValue>,
    photos: Option<seq<Photo>>,
    authorizationId: Option<JsValue>,
    customClaims: Option<map<string, JsValue>>,
    raw: JsValue,
    json: JsValue)

  /** The custom claims of a claim set: every own key with the custom prefix, with its value. */
  function CustomClaims(json: JsValue): map<string, JsValue> {
    var fields := OwnFields(json);
    map k | k in fields && StartsWith(k, CustomClaimPrefix) :: fields[k]
  }

  /** Some own key of the claim set carries the custom prefix. */
  predicate HasCustomClaim(json: JsValue) {
    exists k :: k in OwnFields(json) && StartsWith(k, CustomClaimPrefix)
  }

  /**
   * The loop over `Object.keys(json)` that fills the custom-claims record.
   * The key list holds every own key of an object; for an array or a string it
   * also holds index keys, none of which carries the custom prefix.
   */
  method CollectCustomClaims(json: JsValue, keys: seq<string>) returns (claims: map<string, JsValue>)
    requires forall k :: k in OwnFields(json) ==> k in keys
    requires forall k :: k in keys && StartsWith(k, CustomClaimPrefix) ==> k in OwnFields(json)
    ensures forall k :: k in claims <==> k in OwnFields(json) && StartsWith(k, CustomClaimPrefix)
    ensures forall k :: k in claims ==> claims[k] == OwnFields(json)[k]
    ensures claims == CustomClaims(json)
  {
    var fields := OwnFields(json);
    claims := map[];
    var i := 0;
    while i < |keys|
      invariant 0 <= i <= |keys|
      invariant forall k :: k in claims <==> k in keys[..i] && StartsWith(k, CustomClaimPrefix)
      invariant forall k :: k in claims ==> k in fields && claims[k] == fields[k]
    {
      var key := keys[i];
      if StartsWith(key, CustomClaimPrefix) {
        claims := claims[key := fields[key]];
      }
      assert keys[..i + 1] == keys[..i] + [key];
      i := i + 1;
    }
    assert keys[..i] == keys;
  }

  /** The roles of a truthy role claim: an array as it is, anything else wrapped. */
  function RoleList(role: JsValue): seq<JsValue> {
    if role.Arr? then role.items else [role]
  }

  /** `_normalizeProfile(json, raw)`. */
  function NormalizeProfile(json: JsValue, raw: JsValue): (r: Profile)
    requires !IsNullish(json)
    ensures r.provider == Provider && r.id == Get(json, "sub")
    ensures r.raw == raw && r.json == json
    ensures Truthy(Get(json, "preferred_username")) ==> r.username == Get(json, "preferred_username")
    ensures !Truthy(Get(json, "preferred_username")) ==> r.username == Str("")
    ensures Truthy(Get(json, "name")) ==> r.displayName == Get(json, "name")
    ensures !Truthy(Get(json, "name")) && Truthy(Get(json, "preferred_username")) ==>
              r.displayName == Get(json, "preferred_username")
    ensures !Truthy(Get(json, "name")) && !Truthy(Get(json, "preferred_username")) ==>
              r.displayName == Str("")
    ensures |r.emails| == 1 <==> Truthy(Get(json, "email"))
    ensures |r.emails| <= 1
    ensures |r.emails| == 1 ==> r.emails[0].value == Get(json, "email")
    ensures |r.emails| == 1 && Truthy(Get(json, "email_verified")) ==>
              r.emails[0].verified == Get(json, "email_verified")
    ensures |r.emails| == 1 && !Truthy(Get(json, "email_verified")) ==>
              r.emails[0].verified == Bool(false)
    ensures !Truthy(Get(json, "role")) ==> r.roles == []
    ensures Truthy(Get(json, "role")) && Get(json, "role").Arr? ==> r.roles == Get(json, "role").items
    ensures Truthy(Get(json, "role")) && !Get(json, "role").Arr? ==> r.roles == [Get(json, "role")]
    ensures r.photos.Some? <==> Truthy(Get(json, "picture"))
    ensures r.photos.Some? ==> r.photos.value == [Photo(Get(json, "picture"))]
    ensures r.authorizationId.Some? <==> Truthy(Get(json, "oi_au_id"))
    ensures r.authorizationId.Some? ==> r.authorizationId.value == Get(json, "oi_au_id")
    ensures r.customClaims.Some? <==> HasCustomClaim(json)
    ensures r.customClaims.Some? ==>
              forall k :: k in r.customClaims.value <==> k in OwnFields(json) && StartsWith(k, CustomClaimPrefix)
    ensures r.customClaims.Some? ==>
              forall k :: k in r.customClaims.value ==> r.customClaims.value[k] == OwnFields(json)[k]
  {
    var username := Or(Get(json, "preferred_username"), Str(""));
    var displayName := Or(Get(json, "name"), username);
    var email := Get(json, "email");
    var role := Get(json, "role");
    var picture := Get(json, "picture");
    var authorizationId := Get(json, "oi_au_id");
    var custom := CustomClaims(json);
    assert HasCustomClaim(json) ==> |custom| > 0 by {
      if HasCustomClaim(json) {
        var k :| k in OwnFields(json) && StartsWith(k, CustomClaimPrefix);
        assert k in custom;
      }
    }
    Profile(
      provider := Provider,
      id := Get(json, "sub"),
      username := username,
      displayName := displayName,
      emails := if Truthy(email) then [Email(email, Or(Get(json, "email_verified"), Bool(false)))] else [],
      roles := if Truthy(role) then RoleList(role) else [],
      photos := if Truthy(picture) then Some([Photo(picture)]) else None,
      authorizationId := if Truthy(authorizationId) then Some(authorizationId) else None,
      customClaims := if |custom| > 0 then Some(custom) else None,
      raw := raw,
      json := json)
  }

  /** A string-valued claim that is either absent or a string. */
  predicate OptionalString(v: JsValue) {
    v.Undefined? || v.Str?
  }

  /** The claim set matches the declared shape of the user-info record. */
  predicate UserInfoConforms(json: JsValue) {
    && json.Obj?
    && Get(json, "sub").Str?
    && OptionalString(Get(json, "name"))
    && OptionalString(Get(json, "preferred_username"))
    && OptionalString(Get(json, "email"))
    && (Get(json, "email_verified").Undefined? || Get(json, "email_verified").Bool?)
    && OptionalString(Get(json, "picture"))
    && OptionalString(Get(json, "oi_au_id"))
    && (var role := Get(json, "role");
        role.Undefined? || role.Str? || (role.Arr? && forall i :: 0 <= i < |role.items| ==> role.items[i].Str?))
  }

  /** The profile matches the declared shape of the profile record. */
  predicate ProfileConforms(p: Profile) {
    && p.provider == Provider
    && p.id.Str? && p.username.Str? && p.displayName.Str? && p.raw.Str?
    && (forall i :: 0 <= i < |p.emails| ==> p.emails[i].value.Str? && p.emails[i].verified.Bool?)
    && (forall i :: 0 <= i < |p.roles| ==> p.roles[i].Str?)
    && (p.photos.Some? ==> forall i :: 0 <= i < |p.photos.value| ==> p.photos.value[i].value.Str?)
    && (p.authorizationId.Some? ==> p.authorizationId.value.Str?)
  }

  /** A claim set of the declared shape yields a profile of the declared shape. */
  lemma NormalizeConforms(json: JsValue, raw: JsValue)
    requires UserInfoConforms(json)
    requires raw.Str?
    ensures ProfileConforms(NormalizeProfile(json, raw))
  {
  }

  /** A claim set without the custom prefix anywhere produces no custom-claims record. */
  lemma NoCustomClaimsWithoutPrefix(json: JsValue, raw: JsValue)
    requires !IsNullish(json)
    requires forall k :: k in OwnFields(json) ==> !StartsWith(k, CustomClaimPrefix)
    ensures NormalizeProfile(json, raw).customClaims == None
  {
  }

  /** A full claim set: name, verified email and two roles. */
  lemma FullClaimSetExample()
    ensures var json := Obj(map["sub" := Str("u1"), "name" := Str("Ada"), "email" := Str("a@x.com"),
                                "email_verified" := Bool(true), "role" := Arr([Str("admin"), Str("pilot")])]);
            var p := NormalizeProfile(json, Str("raw"));
            && p.id == Str("u1") && p.displayName == Str("Ada") && p.username == Str("")
            && p.emails == [Email(Str("a@x.com"), Bool(true))]
            && p.roles == [Str("admin"), Str("pilot")]
  {
  }

  /** The minimal claim set: only `sub`. */
  lemma MinimalClaimSetExample()
    ensures var p := NormalizeProfile(Obj(map["sub" := Str("u2")]), Str("raw"));
            && p.id == Str("u2") && p.username == Str("") && p.displayName == Str("")
            && p.emails == [] && p.roles == []
            && p.photos == None && p.authorizationId == None && p.customClaims == None
  {
  }

  /** Falsy claims count as absent: an empty email adds no entry, an empty handle gives `""`. */
  lemma EmptyClaimsCountAsAbsent(json: JsValue, raw: JsValue)
    requires !IsNullish(json)
    requires Get(json, "email") == Str("") && Get(json, "preferred_username") == Str("") && Get(json, "role") == Str("")
    ensures var p := NormalizeProfile(json, raw);
            && p.emails == [] && p.username == Str("") && p.roles == []
            && (!Truthy(Get(json, "name")) ==> p.displayName == Str(""))
  {
  }
}
