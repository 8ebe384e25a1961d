/**
 * StoreVersionFetcher: builds the iTunes lookup URL and turns the decoded lookup
 * response into the release `AppVersion`. The HTTP request itself is the `lookup`
 * parameter: it maps a URL to the decoded JSON body, or to nil when the request
 * fails, returns no data or the body is not JSON.
 */
module StoreFetch {
  import opened Basics
  import opened Text
  import opened JsValues
  import opened AppVersions
  import opened ManagerOptions
  import opened Country

  const LookupPrefix: string := "https://itunes.apple.com/lookup?bundleId="
  const CountryQuery: string := "&country="

  /** The lookup URL text `buildItunesURL` produces (`URL(string:)` is taken to succeed). */
  function ItunesLookupUrl(bundleId: string, country: Option<string>, options: AppVersionManagerOptions, regionCode: Option<string>): (url: string)
    ensures StartsWith(url, LookupPrefix + bundleId)
    ensures var code := CountryHelper(country, Some(options)).CountryCode(regionCode);
      if code.Some? && code.value != [] then url[|LookupPrefix + bundleId|..] == CountryQuery + code.value
      else url == LookupPrefix + bundleId
  {
    var base := LookupPrefix + bundleId;
    var code := CountryHelper(country, Some(options)).CountryCode(regionCode);
    if code.Some? && code.value != [] then base + CountryQuery + code.value else base
  }

  /** `buildItunesURL`: starts from the bundle query and appends the country when there is one. */
  method BuildItunesUrl(bundleId: string, country: Option<string>, options: AppVersionManagerOptions, regionCode: Option<string>)
    returns (url: string)
    ensures url == ItunesLookupUrl(bundleId, country, options, regionCode)
  {
    url := LookupPrefix + bundleId;
    var countryHelper := CountryHelper(country, Some(options));
    var finalCountry := countryHelper.CountryCode(regionCode);
    if finalCountry.Some? && finalCountry.value != [] {
      url := url + CountryQuery + finalCountry.value;
    }
  }

  /** `createAppVersion(from:)`: the store's version, build number "0", and the track id when it is an Int. */
  function CreateAppVersion(json: JsObject): (app: AppVersion)
    ensures app.buildNumber == "0"
    ensures "version" in json && json["version"].JsString? ==> app.version == json["version"].text
    ensures !("version" in json && json["version"].JsString?) ==> app.version == "0.0.0"
    ensures app.trackId.Some? <==> "trackId" in json && json["trackId"].JsInt?
    ensures app.trackId.Some? ==> json["trackId"] == JsInt(app.trackId.value)
  {
    var version := StringField(Some(json), "version").GetOr("0.0.0");
    var buildNumber := "0";
    var trackId := IntField(Some(json), "trackId");
    NewAppVersion(version, buildNumber, trackId)
  }

  /** `results as? [[String: Any]]`: an array whose every element is a dictionary. */
  predicate IsDictArray(v: JsValue) {
    v.JsArray? && forall i :: 0 <= i < |v.items| ==> v.items[i].JsDict?
  }

  /** `parseItunesResponse`, over the already decoded body. */
  function ParseItunesResponse(json: JsValue): (r: Option<AppVersion>)
    ensures r.Some? <==>
      json.JsDict? && "results" in json.fields && IsDictArray(json.fields["results"]) &&
      |json.fields["results"].items| > 0
    ensures r.Some? ==> r.value == CreateAppVersion(json.fields["results"].items[0].fields)
  {
    if !json.JsDict? then None
    else if !("results" in json.fields && IsDictArray(json.fields["results"])) then None
    else
      var results := json.fields["results"].items;
      if |results| == 0 then None
      else Some(CreateAppVersion(results[0].fields))
  }

  /**
   * `getReleaseAppVersion`: nil options mean `AppVersionManagerOptions()`; the explicit
   * bundle id wins over the main bundle's (`mainBundleId`, standing for
   * `Bundle.main.bundleIdentifier`); with neither, the result is nil without a request.
   */
  function GetReleaseAppVersion(
    country: Option<string>, bundleId: Option<string>, options: Option<AppVersionManagerOptions>,
    mainBundleId: Option<string>, regionCode: Option<string>, lookup: string -> Option<JsValue>): (r: Option<AppVersion>)
    ensures bundleId.None? && mainBundleId.None? ==> r.None?
    ensures var id := if bundleId.Some? then bundleId else mainBundleId;
      var finalOptions := if options.Some? then options.value else DefaultManagerOptions();
      id.Some? ==>
        r == match lookup(ItunesLookupUrl(id.value, country, finalOptions, regionCode))
             case None => None
             case Some(body) => ParseItunesResponse(body)
  {
    var finalOptions := options.GetOr(DefaultManagerOptions());
    var finalBundleId := if bundleId.Some? then bundleId else mainBundleId;
    match finalBundleId
    case None => None
    case Some(id) =>
      var url := ItunesLookupUrl(id, country, finalOptions, regionCode);
      match lookup(url)
      case None => None
      case Some(body) => ParseItunesResponse(body)
  }

  /** An explicit bundle id makes the main bundle's identifier irrelevant. */
  lemma ExplicitBundleIdWins(
    country: Option<string>, bundleId: string, options: Option<AppVersionManagerOptions>,
    main1: Option<string>, main2: Option<string>, regionCode: Option<string>, lookup: string -> Option<JsValue>)
    ensures GetReleaseAppVersion(country, Some(bundleId), options, main1, regionCode, lookup)
         == GetReleaseAppVersion(country, Some(bundleId), options, main2, regionCode, lookup)
  {
  }

  /** Nil options behave exactly like `AppVersionManagerOptions()`, i.e. `forceCountry` false. */
  lemma NilOptionsAreDefault(
    country: Option<string>, bundleId: Option<string>, mainBundleId: Option<string>,
    regionCode: Option<string>, lookup: string -> Option<JsValue>)
    ensures GetReleaseAppVersion(country, bundleId, None, mainBundleId, regionCode, lookup)
         == GetReleaseAppVersion(country, bundleId, Some(AppVersionManagerOptions(false)), mainBundleId, regionCode, lookup)
  {
  }

  /** A country query is present in the URL exactly when a non-empty country was resolved. */
  lemma CountryQueryPresence(bundleId: string, country: Option<string>, options: AppVersionManagerOptions, regionCode: Option<string>)
    ensures var code := CountryHelper(country, Some(options)).CountryCode(regionCode);
      |ItunesLookupUrl(bundleId, country, options, regionCode)| > |LookupPrefix + bundleId| <==>
      code.Some? && code.value != []
  {
  }
}
