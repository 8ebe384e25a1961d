/**
 * UpdateAlertPresenter: the text of the update alert, its actions and what each
 * action does to the scheduler and which store URL it opens. `canOpen` stands for
 * `UIApplication.canOpenURL`; opening a URL is reported as the URL opened.
 */
module AlertPresenter {
  import opened Basics
  import opened Text
  import opened Decimal
  import opened AppVersions
  import opened NotifyOptions
  import opened Scheduling

  const WarningPrefix: string := "\U{26A0}\U{FE0F} "
  const CriticalTitle: string := WarningPrefix + "Update Required"
  const DefaultTitle: string := "Update Available"
  const DefaultCloseButton: string := "Not Now"
  const DefaultUpdateButton: string := "Update"
  const MessageLead: string := "A new version ("
  const MessageMiddle: string := ") is available. You are currently using version "
  const StoreHost: string := "itunes.apple.com/"
  const CurrentPlaceholder: string := "#current"
  const ReleasePlaceholder: string := "#release"

  /** The schemes `openAppStore` tries, in order. */
  const Schemes: seq<string> := ["itms-apps://", "https://"]

  datatype ActionStyle = Cancel | Default

  /** Where the update action sends the user. */
  datatype StoreTarget = CustomLink(url: string) | StorePage(country: Option<string>)

  /** One alert button: its title, its style, whether it records a dismissal, and what it opens. */
  datatype AlertAction = AlertAction(title: string, style: ActionStyle, marksDismissed: bool, opens: Option<StoreTarget>)

  datatype Alert = Alert(title: string, message: string, actions: seq<AlertAction>)

  /** Everything before the track id: `"\(scheme)itunes.apple.com/\(country)/app/id"`, without the country part when it is nil or empty. */
  function StorePathPrefix(scheme: string, country: Option<string>): string {
    if country.Some? && country.value != [] then scheme + StoreHost + country.value + "/app/id"
    else scheme + StoreHost + "app/id"
  }

  /** The store page URL `openAppStore` builds for one scheme. */
  function StorePageUrl(scheme: string, country: Option<string>, trackId: int): string {
    StorePathPrefix(scheme, country) + IntToString(trackId) + "?mt=8"
  }

  /** Each piece of a three-way concatenation sits at its offset. */
  lemma PiecesOfConcat(p: string, q: string, r: string)
    ensures (p + q + r)[..|p|] == p
    ensures (p + q + r)[|p|..|p| + |q|] == q
    ensures (p + q + r)[|p| + |q|..] == r
  {
  }

  /**
   * The whole store page URL: scheme, host, the country and a '/' when the country
   * is non-empty, then "app/id", the track id and "?mt=8".
   */
  lemma StorePageUrlFormat(scheme: string, country: Option<string>, trackId: int)
    ensures country.Some? && country.value != [] ==>
      StorePageUrl(scheme, country, trackId) == scheme + StoreHost + country.value + "/app/id" + IntToString(trackId) + "?mt=8"
    ensures country.None? || country.value == [] ==>
      StorePageUrl(scheme, country, trackId) == scheme + StoreHost + "app/id" + IntToString(trackId) + "?mt=8"
  {
  }

  /** The store page URL starts with the scheme, then the store host. */
  lemma StoreUrlStartsWithScheme(scheme: string, country: Option<string>, trackId: int)
    ensures var url := StorePageUrl(scheme, country, trackId);
      |url| >= |scheme| + |StoreHost| && url[..|scheme|] == scheme
      && url[|scheme|..|scheme| + |StoreHost|] == StoreHost
  {
    var id := IntToString(trackId);
    var path := if country.Some? && country.value != [] then country.value + "/app/id" else "app/id";
    assert StorePathPrefix(scheme, country) == scheme + StoreHost + path;
    RegroupAfterSecond(scheme, StoreHost, path, id, "?mt=8");
    PiecesOfConcat(scheme, StoreHost, path + id + "?mt=8");
  }

  /** A non-empty country code sits right after the store host. */
  lemma StoreUrlCountrySlot(scheme: string, country: string, trackId: int)
    requires country != []
    ensures var url := StorePageUrl(scheme, Some(country), trackId);
      |url| >= |scheme| + |StoreHost| + |country| &&
      url[|scheme| + |StoreHost|..|scheme| + |StoreHost| + |country|] == country
  {
    var id := IntToString(trackId);
    assert StorePathPrefix(scheme, Some(country)) == scheme + StoreHost + country + "/app/id";
    RegroupAroundThird(scheme, StoreHost, country, "/app/id", id, "?mt=8");
    PiecesOfConcat(scheme + StoreHost, country, "/app/id" + id + "?mt=8");
  }

  /** The store page URL ends with the track id followed by "?mt=8". */
  lemma StoreUrlEndsWithTrackId(scheme: string, country: Option<string>, trackId: int)
    ensures var url := StorePageUrl(scheme, country, trackId);
      |url| >= 5 + |IntToString(trackId)| &&
      url[|url| - 5 - |IntToString(trackId)|..|url| - 5] == IntToString(trackId)
      && url[|url| - 5..] == "?mt=8"
  {
    PiecesOfConcat(StorePathPrefix(scheme, country), IntToString(trackId), "?mt=8");
  }

  /** The URLs `openAppStore` tries, in order; none without a track id. */
  function AppStoreCandidates(country: Option<string>, trackId: Option<int>): (urls: seq<string>)
    ensures trackId.None? ==> urls == []
    ensures trackId.Some? ==> (|urls| == |Schemes| &&
      forall i :: 0 <= i < |Schemes| ==> urls[i] == StorePageUrl(Schemes[i], country, trackId.value))
  {
    match trackId
    case None => []
    case Some(id) => [StorePageUrl(Schemes[0], country, id), StorePageUrl(Schemes[1], country, id)]
  }

  /** A candidate URL is used when it parses (`isUrl`) and the system can open it (`canOpen`). */
  predicate Launchable(u: string, isUrl: string -> bool, canOpen: string -> bool) {
    isUrl(u) && canOpen(u)
  }

  /** The first URL that can be launched, if any. */
  function FirstOpenable(urls: seq<string>, isUrl: string -> bool, canOpen: string -> bool): (r: Option<string>)
    ensures r.Some? ==> (Launchable(r.value, isUrl, canOpen) &&
      exists i :: 0 <= i < |urls| && urls[i] == r.value && forall j :: 0 <= j < i ==> !Launchable(urls[j], isUrl, canOpen))
    ensures r.None? <==> forall i :: 0 <= i < |urls| ==> !Launchable(urls[i], isUrl, canOpen)
  {
    if urls == [] then None
    else if Launchable(urls[0], isUrl, canOpen) then
      assert urls[0] == urls[0];
      Some(urls[0])
    else
      var r := FirstOpenable(urls[1..], isUrl, canOpen);
      assert r.Some? ==> exists i :: 0 <= i < |urls| && urls[i] == r.value && forall j :: 0 <= j < i ==> !Launchable(urls[j], isUrl, canOpen) by {
        if r.Some? {
          var i :| 0 <= i < |urls[1..]| && urls[1..][i] == r.value && forall j :: 0 <= j < i ==> !Launchable(urls[1..][j], isUrl, canOpen);
          assert urls[i + 1] == r.value;
          assert forall j :: 0 <= j < i + 1 ==> !Launchable(urls[j], isUrl, canOpen) by {
            forall j | 0 <= j < i + 1 ensures !Launchable(urls[j], isUrl, canOpen) {
              if j > 0 { assert urls[j] == urls[1..][j - 1]; }
            }
          }
        }
      }
      assert r.None? <==> forall i :: 0 <= i < |urls| ==> !Launchable(urls[i], isUrl, canOpen) by {
        if r.None? {
          forall i | 0 <= i < |urls| ensures !Launchable(urls[i], isUrl, canOpen) {
            if i > 0 { assert urls[i] == urls[1..][i - 1]; }
          }
        } else {
          assert Launchable(r.value, isUrl, canOpen);
        }
      }
      r
  }

  /** The URL a store target ends up opening, if any. */
  function OpenedUrl(target: Option<StoreTarget>, trackId: Option<int>, isUrl: string -> bool, canOpen: string -> bool): (r: Option<string>)
    ensures target.None? ==> r.None?
    ensures target.Some? && target.value.CustomLink? ==>
      (r.Some? <==> canOpen(target.value.url)) && (r.Some? ==> r.value == target.value.url)
    ensures target.Some? && target.value.StorePage? && trackId.None? ==> r.None?
    ensures target.Some? && target.value.StorePage? && r.Some? ==>
      Launchable(r.value, isUrl, canOpen) && r.value in AppStoreCandidates(target.value.country, trackId)
    ensures target.Some? && target.value.StorePage? ==>
      r == FirstOpenable(AppStoreCandidates(target.value.country, trackId), isUrl, canOpen)
  {
    match target
    case None => None
    case Some(CustomLink(url)) => if canOpen(url) then Some(url) else None
    case Some(StorePage(country)) => FirstOpenable(AppStoreCandidates(country, trackId), isUrl, canOpen)
  }

  /**
   * The native store scheme is preferred; the web URL is used only when the native
   * one cannot be launched; without a track id nothing is opened.
   */
  lemma StoreSchemePreference(country: Option<string>, trackId: Option<int>, isUrl: string -> bool, canOpen: string -> bool)
    ensures trackId.None? ==> FirstOpenable(AppStoreCandidates(country, trackId), isUrl, canOpen).None?
    ensures trackId.Some? ==>
      var native := StorePageUrl("itms-apps://", country, trackId.value);
      var web := StorePageUrl("https://", country, trackId.value);
      FirstOpenable(AppStoreCandidates(country, trackId), isUrl, canOpen) ==
        if Launchable(native, isUrl, canOpen) then Some(native)
        else if Launchable(web, isUrl, canOpen) then Some(web)
        else None
  {
    if trackId.Some? {
      var urls := AppStoreCandidates(country, trackId);
      assert urls[1..][1..] == [];
    }
  }

  /** `getEffectiveTitle(isCritical:)`, with the localized defaults taken as their English values. */
  function EffectiveTitle(options: NotifyNewReleaseOptions, isCritical: bool): (title: string)
    ensures isCritical ==> StartsWith(title, WarningPrefix)
    ensures isCritical && options.title.Some? ==> title[|WarningPrefix|..] == options.title.value
    ensures isCritical && options.title.None? ==> title == CriticalTitle
    ensures !isCritical ==> title == options.title.GetOr(DefaultTitle)
  {
    match options.title
    case Some(customTitle) => if isCritical then WarningPrefix + customTitle else customTitle
    case None => if isCritical then CriticalTitle else DefaultTitle
  }

  /** The close button's text: the custom text, else the localized default. */
  function CloseButtonTitle(options: NotifyNewReleaseOptions): (t: string)
    ensures options.buttonCloseText.None? ==> t == DefaultCloseButton
    ensures options.buttonCloseText.Some? ==> t == options.buttonCloseText.value
  {
    options.buttonCloseText.GetOr(DefaultCloseButton)
  }

  /** The update button's text: the custom text, else the localized default. */
  function UpdateButtonTitle(options: NotifyNewReleaseOptions): (t: string)
    ensures options.buttonUpdateText.None? ==> t == DefaultUpdateButton
    ensures options.buttonUpdateText.Some? ==> t == options.buttonUpdateText.value
  {
    options.buttonUpdateText.GetOr(DefaultUpdateButton)
  }

  /** The default message: the release version fills the first slot, the current version the second. */
  function DefaultMessage(currentApp: AppVersion, releaseApp: AppVersion): (m: string)
    ensures |m| == |MessageLead| + |releaseApp.version| + |MessageMiddle| + |currentApp.version| + 1
    ensures m[..|MessageLead|] == MessageLead
    ensures m[|MessageLead|..|MessageLead| + |releaseApp.version|] == releaseApp.version
    ensures m[|MessageLead| + |releaseApp.version|..|MessageLead| + |releaseApp.version| + |MessageMiddle|] == MessageMiddle
    ensures m[|m| - 1 - |currentApp.version|..|m| - 1] == currentApp.version
    ensures m[|m| - 1] == '.'
  {
    var m := MessageLead + releaseApp.version + MessageMiddle + currentApp.version + ".";
    assert m == MessageLead + (releaseApp.version + (MessageMiddle + (currentApp.version + ".")));
    m
  }

  predicate HasCustomMessage(options: NotifyNewReleaseOptions) {
    options.message.Some? && options.message.value != []
  }

  /** The message text: every `#current`, then every `#release`, substituted; the default when there is no message. */
  function MessageText(options: NotifyNewReleaseOptions, currentApp: AppVersion, releaseApp: AppVersion): (m: string)
    ensures !HasCustomMessage(options) ==> m == DefaultMessage(currentApp, releaseApp)
    ensures (HasCustomMessage(options) && !Contains(options.message.value, CurrentPlaceholder)
             && !Contains(options.message.value, ReleasePlaceholder)) ==> m == options.message.value
  {
    if HasCustomMessage(options) then
      ReplaceAll(ReplaceAll(options.message.value, CurrentPlaceholder, currentApp.version),
                 ReleasePlaceholder, releaseApp.version)
    else DefaultMessage(currentApp, releaseApp)
  }

  /** The text `#release` never matches `#current`, wherever the `#` of `#release` sits. */
  lemma ReleaseHidesNoCurrent(y: string, z: string)
    requires '#' !in y && '#' !in z
    ensures !Contains(y + ReleasePlaceholder + z, CurrentPlaceholder)
  {
    var s := y + ReleasePlaceholder + z;
    forall i | 0 <= i <= |s| ensures !OccursAt(s, CurrentPlaceholder, i) {
      if i + |CurrentPlaceholder| <= |s| {
        assert s[i..i + |CurrentPlaceholder|][0] == s[i];
        assert s[i..i + |CurrentPlaceholder|][1] == s[i + 1];
        if i < |y| {
          assert s[i] == y[i];
        } else if i == |y| {
          assert s[i + 1] == 'r';
        } else if i < |y| + |ReleasePlaceholder| {
          assert s[i] == ReleasePlaceholder[i - |y|];
        } else {
          assert s[i] == z[i - |y| - |ReleasePlaceholder|];
        }
      }
    }
  }

  /** The `#current` pass replaces the one `#current` and keeps `#release`. */
  lemma CurrentPassReplaces(x: string, y: string, z: string, cur: string)
    requires '#' !in x && '#' !in y && '#' !in z
    ensures ReplaceAll(x + CurrentPlaceholder + y + ReleasePlaceholder + z, CurrentPlaceholder, cur)
      == x + cur + y + ReleasePlaceholder + z
  {
    var rest := y + ReleasePlaceholder + z;
    ReleaseHidesNoCurrent(y, z);
    ReplaceSole(x, rest, CurrentPlaceholder, cur);
    RegroupAfterSecond(x, CurrentPlaceholder, y, ReleasePlaceholder, z);
    RegroupAfterSecond(x, cur, y, ReleasePlaceholder, z);
  }

  /** The `#release` pass replaces the one `#release` when nothing before it holds a '#'. */
  lemma ReleasePassReplaces(head: string, z: string, rel: string)
    requires '#' !in head && '#' !in z
    ensures ReplaceAll(head + ReleasePlaceholder + z, ReleasePlaceholder, rel) == head + rel + z
  {
    NotContainedWithoutLead(z, ReleasePlaceholder);
    ReplaceSole(head, z, ReleasePlaceholder, rel);
  }

  /**
   * Placeholders anywhere in the message are replaced: with `#current` and `#release`
   * in the middle of plain text, both versions land in their places.
   */
  lemma MessagePlaceholdersReplaced(options: NotifyNewReleaseOptions, currentApp: AppVersion, releaseApp: AppVersion,
                                    x: string, y: string, z: string)
    requires options.message == Some(x + CurrentPlaceholder + y + ReleasePlaceholder + z)
    requires '#' !in x && '#' !in y && '#' !in z
    requires '#' !in currentApp.version
    ensures MessageText(options, currentApp, releaseApp) == x + currentApp.version + y + releaseApp.version + z
  {
    var cur := currentApp.version;
    CurrentPassReplaces(x, y, z, cur);
    var head := x + cur + y;
    assert '#' !in head;
    assert x + cur + y + ReleasePlaceholder + z == head + ReleasePlaceholder + z;
    ReleasePassReplaces(head, z, releaseApp.version);
  }

  /**
   * What the update button opens: the custom link when it is non-empty and parses as a URL
   * (`isUrl` stands for `URL(string:)` succeeding), otherwise the store page.
   */
  function UpdateTarget(options: NotifyNewReleaseOptions, country: Option<string>, isUrl: string -> bool): (target: StoreTarget)
    ensures target.CustomLink? <==>
      options.appStoreLink.Some? && options.appStoreLink.value != [] && isUrl(options.appStoreLink.value)
    ensures target.CustomLink? ==> target.url == options.appStoreLink.value
    ensures target.StorePage? ==> target.country == country
  {
    match options.appStoreLink
    case Some(link) => if link != [] && isUrl(link) then CustomLink(link) else StorePage(country)
    case None => StorePage(country)
  }

  /** The alert `present` shows: one update action when critical, a close action before it otherwise. */
  function AlertFor(options: NotifyNewReleaseOptions, currentApp: AppVersion, releaseApp: AppVersion,
                    country: Option<string>, isCritical: bool, isUrl: string -> bool): (alert: Alert)
    ensures alert.title == EffectiveTitle(options, isCritical)
    ensures alert.message == MessageText(options, currentApp, releaseApp)
    ensures |alert.actions| == if isCritical then 1 else 2
    ensures alert.actions[|alert.actions| - 1] ==
      AlertAction(UpdateButtonTitle(options), Default, !isCritical, Some(UpdateTarget(options, country, isUrl)))
    ensures !isCritical ==> alert.actions[0] == AlertAction(CloseButtonTitle(options), Cancel, true, None)
    ensures forall i :: 0 <= i < |alert.actions| ==> alert.actions[i].marksDismissed == !isCritical
  {
    var update := AlertAction(UpdateButtonTitle(options), Default, !isCritical, Some(UpdateTarget(options, country, isUrl)));
    var close := AlertAction(CloseButtonTitle(options), Cancel, true, None);
    Alert(EffectiveTitle(options, isCritical), MessageText(options, currentApp, releaseApp),
          if isCritical then [update] else [close, update])
  }

  class UpdateAlertPresenter {
    const currentApp: AppVersion
    const releaseApp: AppVersion
    const options: NotifyNewReleaseOptions
    const scheduler: UpdateNotificationScheduler

    constructor(currentApp: AppVersion, releaseApp: AppVersion, options: NotifyNewReleaseOptions, scheduler: UpdateNotificationScheduler)
      ensures this.currentApp == currentApp && this.releaseApp == releaseApp
      ensures this.options == options && this.scheduler == scheduler
    {
      this.currentApp := currentApp;
      this.releaseApp := releaseApp;
      this.options := options;
      this.scheduler := scheduler;
    }

    /** `parseMessage()`: replaces each placeholder only when it is present. */
    method ParseMessage() returns (parsedMessage: string)
      ensures parsedMessage == MessageText(options, currentApp, releaseApp)
    {
      if !HasCustomMessage(options) {
        return DefaultMessage(currentApp, releaseApp);
      }
      parsedMessage := options.message.value;
      if Contains(parsedMessage, CurrentPlaceholder) {
        parsedMessage := ReplaceAll(parsedMessage, CurrentPlaceholder, currentApp.version);
      }
      if Contains(parsedMessage, ReleasePlaceholder) {
        parsedMessage := ReplaceAll(parsedMessage, ReleasePlaceholder, releaseApp.version);
      }
    }

    /** `present(onPresented:country:isCritical:)`: builds the alert action by action. */
    method Present(country: Option<string>, isCritical: bool, isUrl: string -> bool) returns (alert: Alert)
      ensures alert == AlertFor(options, currentApp, releaseApp, country, isCritical, isUrl)
    {
      var title := EffectiveTitle(options, isCritical);
      var message := ParseMessage();
      var closeButtonTitle := CloseButtonTitle(options);
      var updateButtonTitle := UpdateButtonTitle(options);
      var actions: seq<AlertAction> := [];
      if !isCritical {
        actions := actions + [AlertAction(closeButtonTitle, Cancel, true, None)];
      }
      actions := actions + [AlertAction(updateButtonTitle, Default, !isCritical, Some(UpdateTarget(options, country, isUrl)))];
      alert := Alert(title, message, actions);
    }

    /** `openAppStore(country:)`: tries each scheme in order and opens the first URL that can be opened. */
    method OpenAppStore(country: Option<string>, isUrl: string -> bool, canOpen: string -> bool) returns (openedUrl: Option<string>)
      ensures openedUrl == FirstOpenable(AppStoreCandidates(country, releaseApp.trackId), isUrl, canOpen)
    {
      if releaseApp.trackId.None? {
        return None;
      }
      var trackId := releaseApp.trackId.value;
      ghost var candidates := AppStoreCandidates(country, releaseApp.trackId);
      var schemes := Schemes;
      var i := 0;
      while i < |schemes|
        invariant 0 <= i <= |schemes|
        invariant FirstOpenable(candidates, isUrl, canOpen) == FirstOpenable(candidates[i..], isUrl, canOpen)
      {
        var urlString := StorePageUrl(schemes[i], country, trackId);
        assert candidates[i..][0] == urlString;
        if !isUrl(urlString) {
          assert candidates[i..][1..] == candidates[i + 1..];
          i := i + 1;
          continue;
        }
        if canOpen(urlString) {
          return Some(urlString);
        }
        assert candidates[i..][1..] == candidates[i + 1..];
        i := i + 1;
      }
      assert candidates[i..] == [];
      openedUrl := None;
    }

    /** What tapping one of the alert's actions does. */
    method Tap(action: AlertAction, now: Date, isUrl: string -> bool, canOpen: string -> bool) returns (openedUrl: Option<string>)
      modifies scheduler.defaults
      ensures action.marksDismissed ==>
        scheduler.GetLastDismissDate() == Some(now) && scheduler.GetLastNotificationDate().None?
      ensures !action.marksDismissed ==> unchanged(scheduler.defaults)
      ensures openedUrl == OpenedUrl(action.opens, releaseApp.trackId, isUrl, canOpen)
    {
      if action.marksDismissed {
        scheduler.MarkNotificationDismissed(now);
      }
      match action.opens {
        case None =>
          openedUrl := None;
        case Some(CustomLink(url)) =>
          openedUrl := if canOpen(url) then Some(url) else None;
        case Some(StorePage(country)) =>
          openedUrl := OpenAppStore(country, isUrl, canOpen);
      }
    }
  }

  /** Tapping any button of a non-critical alert records a dismissal that silences every throttled cadence right away. */
  method TapNonCriticalSilences(presenter: UpdateAlertPresenter, country: Option<string>, k: nat, now: Date,
                                isUrl: string -> bool, canOpen: string -> bool)
    returns (openedUrl: Option<string>)
    requires k < 2
    requires presenter.scheduler.options.frequency != Always
    modifies presenter.scheduler.defaults
    ensures !presenter.scheduler.ShouldShowNotification(now)
  {
    var alert := presenter.Present(country, false, isUrl);
    openedUrl := presenter.Tap(alert.actions[k], now, isUrl, canOpen);
  }
}
