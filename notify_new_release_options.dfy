/** Options of `notifyNewRelease`, decoded from the untyped options object. */
module NotifyOptions {
  import opened Basics
  import opened JsValues

  /** How often the update alert may be shown. */
  datatype NotificationFrequency = Always | Daily | Weekly | Monthly

  function FrequencyRawValue(f: NotificationFrequency): string {
    match f
    case Always => "always"
    case Daily => "daily"
    case Weekly => "weekly"
    case Monthly => "monthly"
  }

  /** `NotificationFrequency(rawValue:)`. */
  function FrequencyFromRawValue(s: string): (r: Option<NotificationFrequency>)
    ensures r.Some? ==> FrequencyRawValue(r.value) == s
    ensures r.None? ==> forall f :: FrequencyRawValue(f) != s
  {
    if s == "always" then Some(Always)
    else if s == "daily" then Some(Daily)
    else if s == "weekly" then Some(Weekly)
    else if s == "monthly" then Some(Monthly)
    else None
  }

  /** The level of version bump that the caller calls critical. */
  datatype CriticalUpdateType = Major | Minor | Patch

  function CriticalRawValue(c: CriticalUpdateType): string {
    match c
    case Major => "major"
    case Minor => "minor"
    case Patch => "patch"
  }

  /** `CriticalUpdateType(rawValue:)`. */
  function CriticalFromRawValue(s: string): (r: Option<CriticalUpdateType>)
    ensures r.Some? ==> CriticalRawValue(r.value) == s
    ensures r.None? ==> forall c :: CriticalRawValue(c) != s
  {
    if s == "major" then Some(Major)
    else if s == "minor" then Some(Minor)
    else if s == "patch" then Some(Patch)
    else None
  }

  datatype NotifyNewReleaseOptions = NotifyNewReleaseOptions(
    forceCountry: bool,
    forceNotify: Option<bool>,
    message: Option<string>,
    title: Option<string>,
    buttonCloseText: Option<string>,
    buttonUpdateText: Option<string>,
    appStoreLink: Option<string>,
    critical: Option<CriticalUpdateType>,
    frequency: NotificationFrequency)

  /** `NotifyNewReleaseOptions.init(from:)`. */
  function NotifyOptionsFrom(jsObject: Option<JsObject>): (o: NotifyNewReleaseOptions)
    ensures forall f :: StringField(jsObject, "frequency") == Some(FrequencyRawValue(f)) ==> o.frequency == f
    ensures (StringField(jsObject, "frequency").None? ||
             FrequencyFromRawValue(StringField(jsObject, "frequency").value).None?) ==> o.frequency == Always
    ensures forall c :: StringField(jsObject, "critical") == Some(CriticalRawValue(c)) ==> o.critical == Some(c)
    ensures (StringField(jsObject, "critical").None? ||
             CriticalFromRawValue(StringField(jsObject, "critical").value).None?) ==> o.critical.None?
    ensures BoolField(jsObject, "forceCountry").Some? ==> o.forceCountry == BoolField(jsObject, "forceCountry").value
    ensures BoolField(jsObject, "forceCountry").None? ==> o.forceCountry
    ensures o.forceNotify.Some? <==> BoolField(jsObject, "forceNotify").Some?
    ensures o.forceNotify.Some? ==> jsObject.value["forceNotify"] == JsBool(o.forceNotify.value)
    ensures o.message == StringField(jsObject, "message")
    ensures o.title == StringField(jsObject, "title")
    ensures o.appStoreLink == StringField(jsObject, "appStoreLink")
    ensures o.buttonCloseText == StringField(jsObject, "buttonCloseText")
    ensures o.buttonUpdateText == StringField(jsObject, "buttonUpdateText")
  {
    var frequency :=
      match StringField(jsObject, "frequency")
      case Some(s) => FrequencyFromRawValue(s).GetOr(Always)
      case None => Always;
    var critical :=
      match StringField(jsObject, "critical")
      case Some(s) => CriticalFromRawValue(s)
      case None => None;
    NotifyNewReleaseOptions(
      forceCountry := BoolField(jsObject, "forceCountry").GetOr(true),
      forceNotify := BoolField(jsObject, "forceNotify"),
      message := StringField(jsObject, "message"),
      title := StringField(jsObject, "title"),
      buttonCloseText := StringField(jsObject, "buttonCloseText"),
      buttonUpdateText := StringField(jsObject, "buttonUpdateText"),
      appStoreLink := StringField(jsObject, "appStoreLink"),
      critical := critical,
      frequency := frequency)
  }

  /** No options object at all: every field takes its default. */
  lemma NilObjectGivesDefaults()
    ensures NotifyOptionsFrom(None) ==
      NotifyNewReleaseOptions(true, None, None, None, None, None, None, None, Always)
  {
  }

  /** The raw value of every frequency and every critical level decodes back to that case. */
  lemma RawValuesDecode(f: NotificationFrequency, c: CriticalUpdateType)
    ensures NotifyOptionsFrom(Some(map["frequency" := JsString(FrequencyRawValue(f))])).frequency == f
    ensures NotifyOptionsFrom(Some(map["critical" := JsString(CriticalRawValue(c))])).critical == Some(c)
  {
  }
}
