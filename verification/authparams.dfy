/**
 * Extra parameters for the authorization request: each supported option is
 * sent under its snake_case name when its value is truthy.
 */
module AuthorizationParams {
  import opened JsValues

  /** Option name and the query parameter it becomes, in the order the source checks them. */
  const Renames: seq<(string, string)> := [
    ("nonce", "nonce"),
    ("responseMode", "response_mode"),
    ("prompt", "prompt"),
    ("maxAge", "max_age"),
    ("uiLocales", "ui_locales")
  ]

  /** The names of all parameters this step can send. */
  const ParamNames: set<string> := {"nonce", "response_mode", "prompt", "max_age", "ui_locales"}

  /** The value of an option, `Undefined` when the caller did not supply it. */
  function OptionValue(options: map<string, JsValue>, name: string): JsValue {
    if name in options then options[name] else Undefined
  }

  /** `authorizationParams(options)`. */
  function AuthorizationParams(options: map<string, JsValue>): (r: map<string, JsValue>)
    ensures forall i :: 0 <= i < |Renames| ==> (Renames[i].1 in r <==> Truthy(OptionValue(options, Renames[i].0)))
    ensures forall i :: 0 <= i < |Renames| && Renames[i].1 in r ==> r[Renames[i].1] == OptionValue(options, Renames[i].0)
    ensures r.Keys <= ParamNames
  {
    var params: map<string, JsValue> := map[];
    var params := if Truthy(OptionValue(options, "nonce")) then params["nonce" := OptionValue(options, "nonce")] else params;
    var params := if Truthy(OptionValue(options, "responseMode"))
                  then params["response_mode" := OptionValue(options, "responseMode")] else params;
    var params := if Truthy(OptionValue(options, "prompt")) then params["prompt" := OptionValue(options, "prompt")] else params;
    var params := if Truthy(OptionValue(options, "maxAge")) then params["max_age" := OptionValue(options, "maxAge")] else params;
    var params := if Truthy(OptionValue(options, "uiLocales"))
                  then params["ui_locales" := OptionValue(options, "uiLocales")] else params;
    params
  }

  /** No options, no extra parameters. */
  lemma EmptyOptionsGiveNoParams()
    ensures AuthorizationParams(map[]) == map[]
  {
  }

  /** `maxAge: 0` is falsy and is therefore not sent; a positive age is. */
  lemma MaxAgeZeroOmitted()
    ensures "max_age" !in AuthorizationParams(map["maxAge" := Num(0.0)])
    ensures AuthorizationParams(map["maxAge" := Num(300.0)]) == map["max_age" := Num(300.0)]
  {
  }

  /** Keys other than the five supported options never influence the parameters. */
  lemma UnrelatedOptionsIgnored(options: map<string, JsValue>, key: string, value: JsValue)
    requires forall i :: 0 <= i < |Renames| ==> Renames[i].0 != key
    ensures AuthorizationParams(options[key := value]) == AuthorizationParams(options)
  {
    var a, b := AuthorizationParams(options[key := value]), AuthorizationParams(options);
    assert ParamNames == {Renames[0].1, Renames[1].1, Renames[2].1, Renames[3].1, Renames[4].1};
    forall i | 0 <= i < |Renames|
      ensures OptionValue(options[key := value], Renames[i].0) == OptionValue(options, Renames[i].0)
    {
    }
    assert a.Keys == b.Keys;
  }
}
