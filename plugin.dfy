/**
 * AppVersionManagerPlugin: the three plugin calls. A call's arguments are a
 * `CallArgs`; everything the plugin takes from the device (Info.plist version,
 * main bundle id, locale region, the network, URL parsing) is an `Environment`.
 * A call's `resolve` is `Success`, its `reject` is `Failure(message)`.
 */
module PluginFlow {
  import opened Basics
  import opened JsValues
  import opened AppVersions
  import opened Comparator
  import opened NotifyOptions
  import opened ManagerOptions
  import opened Country
  import opened Scheduling
  import opened StoreFetch
  import opened AlertPresenter

  const CurrentVersionMissing: string :=
    "Unable to get current app version. Make sure the app's Info.plist contains CFBundleShortVersionString and CFBundleVersion."

  const StoreFetchFailed: string :=
    "Unable to fetch release app version from App Store. "
    + "Try to provide correct bundleId and/or country code manually. "
    + "By default, the plugin attempts to determine the app's installation country automatically. "
    + "The country parameter will be used if the country cannot be set. This usually happens on an emulator. "
    + "If you are using an emulator, check your computer's geolocation settings. "
    + "If you want manually control application country please set forceCountry: true."

  const UnknownBundleId: string := "unknown"

  /** The arguments every call reads: `iosBundleId`, `country`, `options`. */
  datatype CallArgs = CallArgs(iosBundleId: Option<string>, country: Option<string>, options: Option<JsObject>)

  datatype Environment = Environment(
    currentApp: Option<AppVersion>,
    mainBundleId: Option<string>,
    regionCode: Option<string>,
    lookup: string -> Option<JsValue>,
    isUrl: string -> bool)

  datatype VersionInfo = VersionInfo(version: string, buildNumber: string, versionString: string)

  /** The `app` dictionary of every resolution. */
  datatype AppInfo = AppInfo(current: VersionInfo, release: VersionInfo, bundleIdentifier: string)

  function DescribeVersion(app: AppVersion): VersionInfo {
    VersionInfo(app.version, app.buildNumber, app.FullVersion())
  }

  /** `buildAppInfo`: each side's version, build and display string, plus the bundle id. */
  function BuildAppInfo(currentApp: AppVersion, releaseApp: AppVersion, bundleIdentifier: string): (info: AppInfo)
    ensures info.current.version == currentApp.version && info.current.buildNumber == currentApp.buildNumber
    ensures info.release.version == releaseApp.version && info.release.buildNumber == releaseApp.buildNumber
    ensures info.current.versionString == currentApp.FullVersion()
    ensures info.release.versionString == releaseApp.FullVersion()
    ensures info.bundleIdentifier == bundleIdentifier
  {
    AppInfo(DescribeVersion(currentApp), DescribeVersion(releaseApp), bundleIdentifier)
  }

  datatype Fetched = Fetched(currentApp: AppVersion, releaseApp: AppVersion, bundleIdentifier: string)

  /** The release lookup every call makes, with the call's options decoded as `AppVersionManagerOptions`. */
  function StoreRelease(args: CallArgs, env: Environment): Option<AppVersion> {
    GetReleaseAppVersion(args.country, args.iosBundleId, Some(ManagerOptionsFrom(args.options)),
                         env.mainBundleId, env.regionCode, env.lookup)
  }

  /**
   * `fetchBothVersions`: a missing current version rejects before any lookup;
   * a failed lookup rejects with the store message; otherwise both versions and
   * the bundle id (explicit, else main bundle's, else "unknown").
   */
  function FetchBothVersions(args: CallArgs, env: Environment): (r: Result<Fetched, string>)
    ensures env.currentApp.None? ==> r == Failure(CurrentVersionMissing)
    ensures env.currentApp.Some? && StoreRelease(args, env).None? ==> r == Failure(StoreFetchFailed)
    ensures r.Success? <==> env.currentApp.Some? && StoreRelease(args, env).Some?
    ensures r.Success? ==>
      r.value.currentApp == env.currentApp.value && Some(r.value.releaseApp) == StoreRelease(args, env)
    ensures r.Success? && args.iosBundleId.Some? ==> r.value.bundleIdentifier == args.iosBundleId.value
    ensures r.Success? && args.iosBundleId.None? && env.mainBundleId.Some? ==>
      r.value.bundleIdentifier == env.mainBundleId.value
  {
    match env.currentApp
    case None => Failure(CurrentVersionMissing)
    case Some(currentApp) =>
      match StoreRelease(args, env)
      case None => Failure(StoreFetchFailed)
      case Some(releaseApp) =>
        var bundleIdentifier :=
          if args.iosBundleId.Some? then args.iosBundleId.value
          else if env.mainBundleId.Some? then env.mainBundleId.value
          else UnknownBundleId;
        Success(Fetched(currentApp, releaseApp, bundleIdentifier))
  }

  /**
   * The "unknown" fallback never shows: a successful fetch needed a bundle id,
   * so the reported one is the explicit id or the main bundle's.
   */
  lemma UnknownFallbackUnreachable(args: CallArgs, env: Environment)
    requires FetchBothVersions(args, env).Success?
    ensures args.iosBundleId.Some? || env.mainBundleId.Some?
    ensures FetchBothVersions(args, env).value.bundleIdentifier ==
      if args.iosBundleId.Some? then args.iosBundleId.value else env.mainBundleId.value
  {
    assert StoreRelease(args, env).Some?;
  }

  /** The store is never consulted when the current version is missing. */
  lemma CurrentMissingIgnoresStore(args: CallArgs, env1: Environment, env2: Environment)
    requires env1.currentApp.None? && env2.currentApp.None?
    ensures FetchBothVersions(args, env1) == FetchBothVersions(args, env2)
  {
  }

  /** `getCurrentVersion`: the app info of both versions. */
  function GetCurrentVersion(args: CallArgs, env: Environment): (r: Result<AppInfo, string>)
    ensures r.Failure? <==> FetchBothVersions(args, env).Failure?
    ensures r.Failure? ==> r.error == FetchBothVersions(args, env).error
    ensures r.Success? ==> var f := FetchBothVersions(args, env).value;
      r.value == BuildAppInfo(f.currentApp, f.releaseApp, f.bundleIdentifier)
  {
    match FetchBothVersions(args, env)
    case Failure(e) => Failure(e)
    case Success(f) => Success(BuildAppInfo(f.currentApp, f.releaseApp, f.bundleIdentifier))
  }

  datatype CheckResult = CheckResult(updateAvailable: bool, app: AppInfo)

  /** `checkForUpdate`: whether the store version is strictly newer, plus the app info. */
  function CheckForUpdate(args: CallArgs, env: Environment): (r: Result<CheckResult, string>)
    ensures r.Failure? <==> FetchBothVersions(args, env).Failure?
    ensures r.Failure? ==> r.error == FetchBothVersions(args, env).error
    ensures r.Success? ==> var f := FetchBothVersions(args, env).value;
      var current := ParseVersion(f.currentApp.version);
      var release := ParseVersion(f.releaseApp.version);
      (r.value.updateAvailable <==> current.Some? && release.Some? && Precedes(current.value, release.value))
    ensures r.Success? ==> GetCurrentVersion(args, env) == Success(r.value.app)
  {
    match FetchBothVersions(args, env)
    case Failure(e) => Failure(e)
    case Success(f) =>
      var comparator := VersionComparator(f.currentApp, f.releaseApp);
      Success(CheckResult(comparator.ShouldNotify(), BuildAppInfo(f.currentApp, f.releaseApp, f.bundleIdentifier)))
  }

  /** An equal store version is never reported as an update. */
  lemma SameVersionNoUpdate(args: CallArgs, env: Environment)
    requires CheckForUpdate(args, env).Success?
    requires FetchBothVersions(args, env).value.currentApp.version == FetchBothVersions(args, env).value.releaseApp.version
    ensures !CheckForUpdate(args, env).value.updateAvailable
  {
    var f := FetchBothVersions(args, env).value;
    CompareReflexive(f.currentApp.version);
  }

  /** Which branch `notifyNewRelease` takes once both versions are known. */
  datatype Outcome = ShowAlert | SkipByScheduler | NotNeeded

  /**
   * The scheduler is asked first, even when `forceNotify` is true; only then does
   * `forceNotify == true`, or else the comparator, decide whether to show the alert.
   */
  function NotifyDecision(forceNotify: Option<bool>, updateAvailable: bool, schedulerAllows: bool): (o: Outcome)
    ensures o == SkipByScheduler <==> !schedulerAllows
    ensures o == ShowAlert <==> schedulerAllows && (forceNotify == Some(true) || updateAvailable)
    ensures o == NotNeeded <==> schedulerAllows && forceNotify != Some(true) && !updateAvailable
  {
    var shouldNotify := if forceNotify == Some(true) then true else updateAvailable;
    if !schedulerAllows then SkipByScheduler
    else if shouldNotify then ShowAlert
    else NotNeeded
  }

  /** What `notifyNewRelease` resolves with. */
  datatype NotifyResolution =
    | Presented(app: AppInfo, alert: Alert)
    | Skipped(app: AppInfo, schedulerDebugInfo: map<string, DebugValue>)
    | NotPresented(app: AppInfo)
  {
    /** The `notified` key: true exactly when the `skippedByScheduler` key is absent. */
    function Notified(): (b: bool)
      ensures b <==> SkippedByScheduler().None?
    {
      this.Presented?
    }

    /** The `skippedByScheduler` key, absent when the alert was presented. */
    function SkippedByScheduler(): (b: Option<bool>)
      ensures b.None? <==> this.Presented?
      ensures b == Some(true) <==> this.Skipped?
    {
      match this
      case Presented(_, _) => None
      case Skipped(_, _) => Some(true)
      case NotPresented(_) => Some(false)
    }
  }

  /**
   * `notifyNewRelease`: fetches both versions, asks a scheduler over the shared
   * `store` whether a notification may be shown at `now`, and presents a
   * non-critical alert for the country the manager options resolve to.
   * Nothing is written to the store by this call.
   */
  method NotifyNewRelease(args: CallArgs, env: Environment, store: UserDefaultsStore, now: Date)
    returns (r: Result<NotifyResolution, string>)
    ensures var f := FetchBothVersions(args, env);
      f.Failure? ==> r == Failure(f.error)
    ensures var f := FetchBothVersions(args, env);
      f.Success? ==> r.Success? && r.value.app == BuildAppInfo(f.value.currentApp, f.value.releaseApp, f.value.bundleIdentifier)
    ensures var f := FetchBothVersions(args, env);
      var alertOptions := NotifyOptionsFrom(args.options);
      f.Success? ==>
        var outcome := NotifyDecision(alertOptions.forceNotify,
                                      VersionComparator(f.value.currentApp, f.value.releaseApp).ShouldNotify(),
                                      ShouldShow(alertOptions.frequency, store.lastNotificationDate, store.lastDismissDate, now));
        (r.value.Presented? <==> outcome == ShowAlert) &&
        (r.value.Skipped? <==> outcome == SkipByScheduler) &&
        (r.value.NotPresented? <==> outcome == NotNeeded) &&
        (r.value.Notified() <==> outcome == ShowAlert) &&
        (r.value.SkippedByScheduler() == Some(true) <==> outcome == SkipByScheduler) &&
        (r.value.SkippedByScheduler() == Some(false) <==> outcome == NotNeeded)
    ensures r.Success? && r.value.Skipped? ==>
      r.value.schedulerDebugInfo ==
        DebugSnapshot(NotifyOptionsFrom(args.options).frequency, store.lastNotificationDate, store.lastDismissDate, now)
    ensures var f := FetchBothVersions(args, env);
      r.Success? && r.value.Presented? ==>
        var country := CountryHelper(args.country, Some(ManagerOptionsFrom(args.options))).CountryCode(env.regionCode);
        r.value.alert == AlertFor(NotifyOptionsFrom(args.options), f.value.currentApp, f.value.releaseApp, country, false, env.isUrl)
  {
    var fetched := FetchBothVersions(args, env);
    if fetched.Failure? {
      return Failure(fetched.error);
    }
    var options := ManagerOptionsFrom(args.options);
    var alertOptions := NotifyOptionsFrom(args.options);
    var currentApp, releaseApp, bundleIdentifier := fetched.value.currentApp, fetched.value.releaseApp, fetched.value.bundleIdentifier;
    var comparator := VersionComparator(currentApp, releaseApp);
    var shouldNotify := if alertOptions.forceNotify == Some(true) then true else comparator.ShouldNotify();

    var scheduler := new UpdateNotificationScheduler(store, alertOptions);
    if !scheduler.ShouldShowNotification(now) {
      var appInfo := BuildAppInfo(currentApp, releaseApp, bundleIdentifier);
      var debugInfo := scheduler.GetDebugInfo(now);
      return Success(Skipped(appInfo, debugInfo));
    }

    var appInfo := BuildAppInfo(currentApp, releaseApp, bundleIdentifier);
    if shouldNotify {
      var presenter := new UpdateAlertPresenter(currentApp, releaseApp, alertOptions, scheduler);
      var country := CountryHelper(args.country, Some(options)).CountryCode(env.regionCode);
      var alert := presenter.Present(country, false, env.isUrl);
      r := Success(Presented(appInfo, alert));
    } else {
      r := Success(NotPresented(appInfo));
    }
  }

  /** A forced notification is still held back by the scheduler. */
  lemma ForcedStillThrottled(updateAvailable: bool)
    ensures NotifyDecision(Some(true), updateAvailable, false) == SkipByScheduler
    ensures NotifyDecision(Some(true), updateAvailable, true) == ShowAlert
  {
  }
}
