/** Options shared by the three plugin calls: only `forceCountry`, false by default. */
module ManagerOptions {
  import opened Basics
  import opened JsValues

  datatype AppVersionManagerOptions = AppVersionManagerOptions(forceCountry: bool)

  /** `AppVersionManagerOptions.init()`. */
  function DefaultManagerOptions(): (o: AppVersionManagerOptions)
    ensures !o.forceCountry
  {
    AppVersionManagerOptions(false)
  }

  /** `AppVersionManagerOptions.init(from:)`. */
  function ManagerOptionsFrom(jsObject: Option<JsObject>): (o: AppVersionManagerOptions)
    ensures jsObject.None? ==> !o.forceCountry
    ensures jsObject.Some? && "forceCountry" in jsObject.value && jsObject.value["forceCountry"].JsBool? ==>
      o.forceCountry == jsObject.value["forceCountry"].flag
    ensures jsObject.Some? && "forceCountry" in jsObject.value && !jsObject.value["forceCountry"].JsBool? ==>
      !o.forceCountry
    ensures o.forceCountry ==> BoolField(jsObject, "forceCountry") == Some(true)
  {
    AppVersionManagerOptions(BoolField(jsObject, "forceCountry").GetOr(false))
  }
}
