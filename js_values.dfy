/**
 * Untyped dictionaries: Capacitor's `JSObject` handed over from JavaScript, and the
 * `[String: Any]` that JSON decoding of a store response produces.
 */
module JsValues {
  import opened Basics

  datatype JsValue =
    | JsString(text: string)
    | JsBool(flag: bool)
    | JsInt(number: int)
    | JsArray(items: seq<JsValue>)
    | JsDict(fields: map<string, JsValue>)
    | JsOther   // doubles, null, dates and anything else the casts below reject

  type JsObject = map<string, JsValue>

  /** `object?[key] as? String`. */
  function StringField(obj: Option<JsObject>, key: string): (r: Option<string>)
    ensures r.Some? <==> obj.Some? && key in obj.value && obj.value[key].JsString?
    ensures r.Some? ==> obj.value[key] == JsString(r.value)
  {
    if obj.Some? && key in obj.value && obj.value[key].JsString? then Some(obj.value[key].text) else None
  }

  /** `object?[key] as? Bool`. */
  function BoolField(obj: Option<JsObject>, key: string): (r: Option<bool>)
    ensures r.Some? <==> obj.Some? && key in obj.value && obj.value[key].JsBool?
    ensures r.Some? ==> obj.value[key] == JsBool(r.value)
  {
    if obj.Some? && key in obj.value && obj.value[key].JsBool? then Some(obj.value[key].flag) else None
  }

  /** `object?[key] as? Int`. */
  function IntField(obj: Option<JsObject>, key: string): (r: Option<int>)
    ensures r.Some? <==> obj.Some? && key in obj.value && obj.value[key].JsInt?
    ensures r.Some? ==> obj.value[key] == JsInt(r.value)
  {
    if obj.Some? && key in obj.value && obj.value[key].JsInt? then Some(obj.value[key].number) else None
  }
}
