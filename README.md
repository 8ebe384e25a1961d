# App Version Manager — a verified Dafny model

This project models the decision logic of the iOS side of the Capacitor plugin
`capacitor-app-version-manager`. The plugin compares the installed app's version with
the version the App Store lookup reports. It decides whether an update alert may be
shown, throttling it by a cadence (always, daily, weekly or monthly) that is kept in
`UserDefaults`. It builds the alert: title, message with `#current`/`#release`
placeholders, buttons, and the store URL each button opens.

Each Swift core file is one Dafny module:

| Swift file | Dafny module | form |
|---|---|---|
| `Models/AppVersion.swift` | `AppVersions` (`app_version.dfy`) | datatype |
| `Models/AppVersionManagerOptions.swift` | `ManagerOptions` | datatype + decoder |
| `Models/NotifyNewReleaseOptions.swift` | `NotifyOptions` | datatypes + decoder |
| `Helpers/VersionComparator.swift` | `Comparator` | functions and lemmas |
| `Helpers/CountryHelper.swift` | `Country` | datatype with member functions |
| `Helpers/UpdateNotificationScheduler.swift` | `Scheduling` | class `UpdateNotificationScheduler` over a shared class `UserDefaultsStore`, plus pure decision functions |
| `Helpers/StoreVersionFetcher.swift` | `StoreFetch` | functions; `buildItunesURL` as a method |
| `Helpers/UpdateAlertPresenter.swift` | `AlertPresenter` | class `UpdateAlertPresenter`; `parseMessage`, `present` and `openAppStore` as methods |
| `AppVersionManagerPlugin.swift` | `PluginFlow` | functions; `notifyNewRelease` as a method |

Four helper modules hold the Swift library behaviour the core relies on:

- `Basics` holds `Option` and `Result`.
- `Text` holds ASCII `lowercased()`, `contains`, `replacingOccurrences(of:with:)` (left to right, non-overlapping), and `split(separator: ".")` (which drops empty pieces).
- `Decimal` holds `Int(String)`, which takes an optional sign and then one or more decimal digits, and integer interpolation.
- `JsValues` models a `JSObject` or decoded JSON as a map to a small value datatype, plus the `as? String/Bool/Int` casts.

The model takes these as inputs:

- The clock: a `now: Date` parameter, counted in whole seconds.
- The locale region: `regionCode`.
- The main bundle identifier: `mainBundleId`.
- The installed version from Info.plist: `Environment.currentApp`.
- The store lookup: `lookup: string -> Option<JsValue>`, the decoded body or nil.
- `URL(string:)`: `isUrl`.
- `UIApplication.canOpenURL`: `canOpen`.

Plugin calls resolve to `Success` and reject with `Failure(message)`.

Where the code and its description disagree, the model follows the code:

- `"1.2"` has only two numeric pieces, so it parses to nil, not to (1, 2, 0). An unparseable side compares as "same", so no update is reported.
- The scheduler is asked first in `notifyNewRelease`, so a forced notification (`forceNotify: true`) is still throttled.
- `NotifyNewReleaseOptions.forceCountry`, which defaults to true, is decoded but never read. Both the store lookup and the alert's country use `AppVersionManagerOptions.forceCountry`, which defaults to false.
- No code computes whether an update is critical. `present` takes `isCritical` as an input. The plugin's call passes no such argument, and the flow model presents a non-critical alert.
- The `"unknown"` bundle-id fallback can never be reported. A successful store fetch needed a bundle id, which is then either the explicit one or the main bundle's (`PluginFlow.UnknownFallbackUnreachable`).
- Nothing in the flow calls `markNotificationShown`, so with a throttled cadence only dismissals throttle the alert. A showing that is never dismissed does not.


## Model

| member | source | states |
|---|---|---|
| AppVersions.AppVersion.FullVersion | ios/Sources/AppVersionManager/Models/AppVersion.swift:16-18 | the display string is the version, then " (", then the build number, then ")"; each part sits at its fixed position |
| AppVersions.NewAppVersion | ios/Sources/AppVersionManager/Models/AppVersion.swift:20-24 | the initialiser stores the three fields unchanged, and the track id defaults to nil |
| ManagerOptions.DefaultManagerOptions | ios/Sources/AppVersionManager/Models/AppVersionManagerOptions.swift:14-16 | `init()` gives forceCountry false |
| ManagerOptions.ManagerOptionsFrom | ios/Sources/AppVersionManager/Models/AppVersionManagerOptions.swift:18-20 | a nil object gives false; a Bool under "forceCountry" is copied; any other value gives false |
| JsValues.StringField | ios/Sources/AppVersionManager/Models/NotifyNewReleaseOptions.swift:53-57 | `object?[key] as? String` is non-nil exactly when the key holds a string, and then it is that string |
| JsValues.BoolField | ios/Sources/AppVersionManager/Models/NotifyNewReleaseOptions.swift:51-52 | `object?[key] as? Bool` is non-nil exactly when the key holds a Bool, and then it is that Bool |
| JsValues.IntField | ios/Sources/AppVersionManager/Helpers/StoreVersionFetcher.swift:102 | `object?[key] as? Int` is non-nil exactly when the key holds an Int, and then it is that Int |
| NotifyOptions.FrequencyFromRawValue | ios/Sources/AppVersionManager/Models/NotifyNewReleaseOptions.swift:12-17 | a decoded frequency has the given raw value; nil exactly when no case has that raw value |
| NotifyOptions.CriticalFromRawValue | ios/Sources/AppVersionManager/Models/NotifyNewReleaseOptions.swift:19-23 | a decoded critical level has the given raw value; nil exactly when no case has that raw value |
| NotifyOptions.NotifyOptionsFrom | ios/Sources/AppVersionManager/Models/NotifyNewReleaseOptions.swift:37-58 | a recognised frequency string gives its case, and anything else gives always; a recognised critical string gives its case, and anything else gives nil; forceCountry is the Bool if present, else true; forceNotify and the five texts are copied only when they have the right type |
| NotifyOptions.NilObjectGivesDefaults | ios/Sources/AppVersionManager/Models/NotifyNewReleaseOptions.swift:37-58 | a nil object gives always, forceCountry true and nil for every other field |
| NotifyOptions.RawValuesDecode | ios/Sources/AppVersionManager/Models/NotifyNewReleaseOptions.swift:38-49 | decoding the raw value of any frequency or critical case gives that case back |
| Decimal.ParseInt | ios/Sources/AppVersionManager/Helpers/VersionComparator.swift:21 | `Int(piece)` succeeds exactly on an optional sign followed by one or more digits; its value is the digits' decimal value, negated after a minus sign |
| Decimal.LeadingZeroIgnored | ios/Sources/AppVersionManager/Helpers/VersionComparator.swift:21 | a leading zero does not change the value of a digit run, so "09" reads as 9 |
| Decimal.NatToDecimal | ios/Sources/AppVersionManager/Helpers/UpdateAlertPresenter.swift:186 | the decimal text of a natural number is all digits, has no leading zero and reads back as that number |
| Decimal.IntToString | ios/Sources/AppVersionManager/Helpers/UpdateAlertPresenter.swift:186 | interpolating an Int gives the plain decimal digits of its magnitude (no sign, no leading zero), preceded by "-" exactly for a negative number; the text has no dots and `Int(_:)` parses it back to the same number |
| Text.Lowercased | ios/Sources/AppVersionManager/Helpers/CountryHelper.swift:23 | `lowercased()` keeps the length, lowercases each ASCII capital, leaves other characters alone, gives lowercase text, and leaves lowercase text unchanged |
| Text.SplitOnDots | ios/Sources/AppVersionManager/Helpers/VersionComparator.swift:21 | `split(separator: ".")` yields only non-empty pieces without dots |
| Text.SplitAroundDot | ios/Sources/AppVersionManager/Helpers/VersionComparator.swift:21 | splitting `a + "." + b` is splitting `a` followed by splitting `b` |
| Text.SplitJoin | ios/Sources/AppVersionManager/Helpers/VersionComparator.swift:21 | splitting the dot-join of non-empty dot-free pieces gives those pieces back |
| Text.EmptyPieceOmitted | ios/Sources/AppVersionManager/Helpers/VersionComparator.swift:21 | a doubled dot gives the same pieces as a single dot |
| Text.ReplaceAll | ios/Sources/AppVersionManager/Helpers/UpdateAlertPresenter.swift:109-121 | `replacingOccurrences(of:with:)` leaves text without the pattern unchanged, and replacing a pattern by itself changes nothing |
| Text.ReplaceAllFirst | ios/Sources/AppVersionManager/Helpers/UpdateAlertPresenter.swift:109-121 | the first occurrence is replaced wherever it sits: the text before it is kept, and scanning resumes right after it |
| Text.ReplaceSole | ios/Sources/AppVersionManager/Helpers/UpdateAlertPresenter.swift:109-121 | a single occurrence with no earlier start of the pattern is replaced and the rest of the text is kept |
| Comparator.NumericComponents | ios/Sources/AppVersionManager/Helpers/VersionComparator.swift:21 | compactMap keeps at most as many values as there are pieces |
| Comparator.ParseVersion | ios/Sources/AppVersionManager/Helpers/VersionComparator.swift:20-28 | nil exactly when fewer than three pieces parse as integers; otherwise the triple is the first three parsed pieces, in order |
| Comparator.Compare | ios/Sources/AppVersionManager/Helpers/VersionComparator.swift:30-55 | ascending exactly when both sides parse and current precedes release lexicographically; descending exactly when both parse and release precedes current; same exactly when either side is unparseable or the triples are equal |
| Comparator.VersionComparator.ShouldNotify | ios/Sources/AppVersionManager/Helpers/VersionComparator.swift:57-63 | true exactly when both versions parse and current precedes release |
| Comparator.PrecedesIsStrictTotalOrder | ios/Sources/AppVersionManager/Helpers/VersionComparator.swift:36-54 | the lexicographic order on triples is irreflexive, asymmetric, transitive and total |
| Comparator.CompareReflexive | ios/Sources/AppVersionManager/Helpers/VersionComparator.swift:30-55 | a version compares as same with itself |
| Comparator.CompareAntisymmetric | ios/Sources/AppVersionManager/Helpers/VersionComparator.swift:30-55 | compare(a, b) is ascending exactly when compare(b, a) is descending, and same exactly when it is same |
| Comparator.CompareTransitive | ios/Sources/AppVersionManager/Helpers/VersionComparator.swift:36-54 | compare(a, b) and compare(b, c) both ascending give compare(a, c) ascending; the same holds for descending |
| Comparator.UnparseableIsSame | ios/Sources/AppVersionManager/Helpers/VersionComparator.swift:31-34 | an unparseable side compares as same in both argument orders and never triggers a notification |
| Comparator.NumericComponentsOfNumbers | ios/Sources/AppVersionManager/Helpers/VersionComparator.swift:21 | the texts of three integers survive compactMap as those integers |
| Comparator.ParseFormatRoundTrip | ios/Sources/AppVersionManager/Helpers/VersionComparator.swift:20-28 | parsing "major.minor.patch" gives the triple back |
| Comparator.NumericComponentsCons | ios/Sources/AppVersionManager/Helpers/VersionComparator.swift:21 | the definition of compactMap unfolded one piece at a time: the leading piece's value is kept in front exactly when it parses, and the rest is mapped the same way |
| Comparator.ParseNumericPieces | ios/Sources/AppVersionManager/Helpers/VersionComparator.swift:20-28 | when the first three pieces are numeric, the triple is those three numbers |
| Comparator.SplitLeadingPiece | ios/Sources/AppVersionManager/Helpers/VersionComparator.swift:21 | a dot-free non-empty first piece splits off the front |
| Comparator.ExtraPiecesIgnored | ios/Sources/AppVersionManager/Helpers/VersionComparator.swift:27 | anything after the first three numeric pieces is ignored |
| Comparator.NonNumericPieceSkipped | ios/Sources/AppVersionManager/Helpers/VersionComparator.swift:21 | a leading non-numeric piece is dropped before counting |
| Comparator.DoubledDotIgnored | ios/Sources/AppVersionManager/Helpers/VersionComparator.swift:21 | a doubled dot parses like a single one |
| Comparator.ParseExamplesTooShort | ios/Sources/AppVersionManager/Helpers/VersionComparator.swift:21-25 | "1.2" and "abc" parse to nil |
| Comparator.ParseExampleFourPieces | ios/Sources/AppVersionManager/Helpers/VersionComparator.swift:21-27 | "1.2.3.4" parses as (1, 2, 3) |
| Comparator.InnerWordSkipped | ios/Sources/AppVersionManager/Helpers/VersionComparator.swift:21-27 | a non-numeric piece after the major is skipped, and the next numeric pieces move up |
| Comparator.ParseExampleSkipsWord | ios/Sources/AppVersionManager/Helpers/VersionComparator.swift:21-27 | "1.x.2.3" parses as (1, 2, 3) |
| Comparator.ParseThreePieces | ios/Sources/AppVersionManager/Helpers/VersionComparator.swift:20-28 | three dot-joined segments that each parse give the triple of their values, whatever their spelling |
| Comparator.LeadingZeroExample | ios/Sources/AppVersionManager/Helpers/VersionComparator.swift:20-54 | "1.09.0" parses as (1, 9, 0) and compares as descending against "1.8.0" |
| Comparator.DateStyleExample | ios/Sources/AppVersionManager/Helpers/VersionComparator.swift:20-28 | the date-style version "2024.01.05" parses as (2024, 1, 5) |
| Country.CountryHelper.CountryCodeFromLocale | ios/Sources/AppVersionManager/Helpers/CountryHelper.swift:40-46 | nil exactly when there is no region; otherwise the lowercased region |
| Country.CountryHelper.CountryCode | ios/Sources/AppVersionManager/Helpers/CountryHelper.swift:18-38 | nil options count as forced; when forced, a non-empty explicit country (lowercased) wins, else the locale; when not forced, the locale wins, else the non-empty explicit country, else nil; any result is lowercase |
| Country.NilOnlyWithoutSources | ios/Sources/AppVersionManager/Helpers/CountryHelper.swift:18-38 | the code is nil exactly when there is no region and no non-empty explicit country |
| Scheduling.DaysBetween | ios/Sources/AppVersionManager/Helpers/UpdateNotificationScheduler.swift:82 | the whole number of 86400-second days elapsed, truncated toward zero, for either order of the dates |
| Scheduling.ShouldShowBasedOnInterval | ios/Sources/AppVersionManager/Helpers/UpdateNotificationScheduler.swift:80-101 | with a dismissal, true exactly when days since it are at least the interval; with neither date, true; with only a shown date, true exactly when days since it are at least the interval |
| Scheduling.ShouldShow | ios/Sources/AppVersionManager/Helpers/UpdateNotificationScheduler.swift:21-35 | always gives true; daily, weekly and monthly use intervals of 1, 7 and 30 days |
| Scheduling.DaysBetweenMonotonic | ios/Sources/AppVersionManager/Helpers/UpdateNotificationScheduler.swift:82 | elapsed days never decrease as time moves forward |
| Scheduling.ShouldShowMonotonicInTime | ios/Sources/AppVersionManager/Helpers/UpdateNotificationScheduler.swift:80-101 | once showing is allowed, it stays allowed at every later time for the same stored dates |
| Scheduling.DismissalTakesPriority | ios/Sources/AppVersionManager/Helpers/UpdateNotificationScheduler.swift:81-90 | with a dismissal on record, the shown date plays no part |
| Scheduling.FreshDateSuppresses | ios/Sources/AppVersionManager/Helpers/UpdateNotificationScheduler.swift:80-101 | inside the cadence's window after a dismissal, or after a showing, no throttled cadence shows |
| Scheduling.CadenceExamples | ios/Sources/AppVersionManager/Helpers/UpdateNotificationScheduler.swift:26-33 | daily: not after 23 hours, yes after 25 hours; weekly: not 6 days after a dismissal, yes after 7; an old dismissal overrides a fresh showing |
| Scheduling.DebugSnapshot | ios/Sources/AppVersionManager/Helpers/UpdateNotificationScheduler.swift:61-78 | the keys are frequency and shouldShow, plus each date and its days-since exactly when that date is stored; shouldShow is the scheduler's decision |
| Scheduling.UserDefaultsStore.constructor | ios/Sources/AppVersionManager/Helpers/UpdateNotificationScheduler.swift:11-13 | a fresh store holds neither date |
| Scheduling.UpdateNotificationScheduler.constructor | ios/Sources/AppVersionManager/Helpers/UpdateNotificationScheduler.swift:14-19 | the scheduler keeps the options and the shared store |
| Scheduling.UpdateNotificationScheduler.ShouldShowNotification | ios/Sources/AppVersionManager/Helpers/UpdateNotificationScheduler.swift:21-35 | always gives true; every other cadence gives the interval decision over the stored dates with its number of days |
| Scheduling.UpdateNotificationScheduler.GetLastNotificationDate | ios/Sources/AppVersionManager/Helpers/UpdateNotificationScheduler.swift:53-55 | the stored shown date, or nil when none is stored |
| Scheduling.UpdateNotificationScheduler.GetLastDismissDate | ios/Sources/AppVersionManager/Helpers/UpdateNotificationScheduler.swift:57-59 | the stored dismiss date, or nil when none is stored |
| Scheduling.UpdateNotificationScheduler.MarkNotificationShown | ios/Sources/AppVersionManager/Helpers/UpdateNotificationScheduler.swift:37-40 | the shown date becomes now; the dismiss date is unchanged |
| Scheduling.UpdateNotificationScheduler.MarkNotificationDismissed | ios/Sources/AppVersionManager/Helpers/UpdateNotificationScheduler.swift:42-46 | the dismiss date becomes now and the shown date is removed; right after, every throttled cadence says no |
| Scheduling.UpdateNotificationScheduler.Reset | ios/Sources/AppVersionManager/Helpers/UpdateNotificationScheduler.swift:48-51 | both dates are removed; afterwards every cadence says yes at every time |
| Scheduling.UpdateNotificationScheduler.GetDebugInfo | ios/Sources/AppVersionManager/Helpers/UpdateNotificationScheduler.swift:61-78 | changes nothing; the dictionary built entry by entry is the snapshot of the stored dates, and its shouldShow equals `shouldShowNotification()` |
| StoreFetch.ItunesLookupUrl | ios/Sources/AppVersionManager/Helpers/StoreVersionFetcher.swift:38-52 | the URL starts with the lookup prefix and bundle id; it is followed by "&country=" and the code exactly when the resolved country is non-nil and non-empty, and by nothing otherwise |
| StoreFetch.BuildItunesUrl | ios/Sources/AppVersionManager/Helpers/StoreVersionFetcher.swift:38-52 | building the string step by step gives that URL |
| StoreFetch.CountryQueryPresence | ios/Sources/AppVersionManager/Helpers/StoreVersionFetcher.swift:45-49 | the URL is longer than the bare bundle query exactly when a non-empty country was resolved |
| StoreFetch.CreateAppVersion | ios/Sources/AppVersionManager/Helpers/StoreVersionFetcher.swift:99-108 | the build number is "0"; the version is the string under "version", else "0.0.0"; the track id is set exactly when "trackId" holds an Int |
| StoreFetch.ParseItunesResponse | ios/Sources/AppVersionManager/Helpers/StoreVersionFetcher.swift:78-96 | non-nil exactly when the body is a dictionary whose "results" is a non-empty array of dictionaries; it is then built from the first result |
| StoreFetch.GetReleaseAppVersion | ios/Sources/AppVersionManager/Helpers/StoreVersionFetcher.swift:12-31 | with neither an explicit nor a main bundle id, nil without a lookup; otherwise the explicit id wins, nil options are the defaults, and the result is the parsed response to the lookup URL |
| StoreFetch.ExplicitBundleIdWins | ios/Sources/AppVersionManager/Helpers/StoreVersionFetcher.swift:19 | with an explicit bundle id, the main bundle's id makes no difference |
| StoreFetch.NilOptionsAreDefault | ios/Sources/AppVersionManager/Helpers/StoreVersionFetcher.swift:18 | nil options behave as forceCountry false |
| AlertPresenter.AppStoreCandidates | ios/Sources/AppVersionManager/Helpers/UpdateAlertPresenter.swift:176-189 | no candidates without a track id; otherwise one store page URL per scheme, itms-apps first, then https |
| AlertPresenter.FirstOpenable | ios/Sources/AppVersionManager/Helpers/UpdateAlertPresenter.swift:182-197 | the result is a candidate that parses and can be opened, and no earlier candidate could; nil exactly when no candidate could |
| AlertPresenter.StoreSchemePreference | ios/Sources/AppVersionManager/Helpers/UpdateAlertPresenter.swift:175-198 | without a track id nothing opens; otherwise the itms-apps URL if it can be launched, else the https URL if it can, else nothing |
| AlertPresenter.StorePageUrlFormat | ios/Sources/AppVersionManager/Helpers/UpdateAlertPresenter.swift:185-189 | the whole URL is scheme, "itunes.apple.com/", then the country and "/app/id" for a non-empty country or "app/id" for a nil or empty one, then the track id and "?mt=8" |
| AlertPresenter.StoreUrlStartsWithScheme | ios/Sources/AppVersionManager/Helpers/UpdateAlertPresenter.swift:185-189 | each store page URL starts with its scheme, then "itunes.apple.com/" |
| AlertPresenter.StoreUrlCountrySlot | ios/Sources/AppVersionManager/Helpers/UpdateAlertPresenter.swift:185-186 | a non-empty country code comes right after the host |
| AlertPresenter.StoreUrlEndsWithTrackId | ios/Sources/AppVersionManager/Helpers/UpdateAlertPresenter.swift:185-189 | each store page URL ends with the decimal track id, then "?mt=8" |
| AlertPresenter.OpenedUrl | ios/Sources/AppVersionManager/Helpers/UpdateAlertPresenter.swift:54-71 | no link opens nothing; a custom link opens exactly when it can be opened; a store page opens the first candidate URL that parses and can be opened, nothing when none can, and nothing without a track id |
| AlertPresenter.EffectiveTitle | ios/Sources/AppVersionManager/Helpers/UpdateAlertPresenter.swift:83-99 | a critical title always carries the warning prefix: a custom title follows it, otherwise it is "⚠️ Update Required"; a non-critical title is the custom title, else "Update Available" |
| AlertPresenter.CloseButtonTitle | ios/Sources/AppVersionManager/Helpers/UpdateAlertPresenter.swift:148-156 | the custom close text, else "Not Now" |
| AlertPresenter.UpdateButtonTitle | ios/Sources/AppVersionManager/Helpers/UpdateAlertPresenter.swift:158-166 | the custom update text, else "Update" |
| AlertPresenter.DefaultMessage | ios/Sources/AppVersionManager/Helpers/UpdateAlertPresenter.swift:136-146 | the default text puts the release version in the first slot and the current version in the second, between the fixed sentence parts |
| AlertPresenter.MessageText | ios/Sources/AppVersionManager/Helpers/UpdateAlertPresenter.swift:102-124 | a nil or empty message gives the default text; a message without either placeholder is shown as is |
| AlertPresenter.ReleaseHidesNoCurrent | ios/Sources/AppVersionManager/Helpers/UpdateAlertPresenter.swift:109-114 | "#release" never contains a match of "#current", so the first pass leaves it intact |
| AlertPresenter.CurrentPassReplaces | ios/Sources/AppVersionManager/Helpers/UpdateAlertPresenter.swift:109-114 | the first pass puts the current version in place of "#current" and keeps the rest, "#release" included |
| AlertPresenter.ReleasePassReplaces | ios/Sources/AppVersionManager/Helpers/UpdateAlertPresenter.swift:116-121 | the second pass puts the release version in place of "#release" and keeps the rest |
| AlertPresenter.MessagePlaceholdersReplaced | ios/Sources/AppVersionManager/Helpers/UpdateAlertPresenter.swift:102-124 | with "#current" and "#release" in the middle of the text, the message is the text with the current and the release version in their places |
| AlertPresenter.UpdateTarget | ios/Sources/AppVersionManager/Helpers/UpdateAlertPresenter.swift:62-69 | the custom link exactly when it is non-empty and parses as a URL; otherwise the store page for the country |
| AlertPresenter.AlertFor | ios/Sources/AppVersionManager/Helpers/UpdateAlertPresenter.swift:31-80 | the alert has the effective title and the message text; one action when critical, two when not; close (cancel style, no link) comes first, update (default style, opening the update target) last; every action records a dismissal exactly when not critical |
| AlertPresenter.UpdateAlertPresenter.constructor | ios/Sources/AppVersionManager/Helpers/UpdateAlertPresenter.swift:19-29 | the presenter keeps both apps, the options and the scheduler |
| AlertPresenter.UpdateAlertPresenter.ParseMessage | ios/Sources/AppVersionManager/Helpers/UpdateAlertPresenter.swift:102-124 | replacing each placeholder only when `contains` finds it gives the message text |
| AlertPresenter.UpdateAlertPresenter.Present | ios/Sources/AppVersionManager/Helpers/UpdateAlertPresenter.swift:31-80 | the alert built action by action is the alert for the presenter's options, apps, country and criticality |
| AlertPresenter.UpdateAlertPresenter.OpenAppStore | ios/Sources/AppVersionManager/Helpers/UpdateAlertPresenter.swift:175-198 | the loop opens exactly the first candidate that parses and can be opened, or nothing |
| AlertPresenter.UpdateAlertPresenter.Tap | ios/Sources/AppVersionManager/Helpers/UpdateAlertPresenter.swift:44-71 | a dismissing action records the dismissal now and clears the shown date, while other actions leave the store alone; what opens is the link, if it can be opened, or the first launchable store page |
| AlertPresenter.TapNonCriticalSilences | ios/Sources/AppVersionManager/Helpers/UpdateAlertPresenter.swift:44-60 | tapping either button of a non-critical alert silences every throttled cadence right away |
| PluginFlow.BuildAppInfo | ios/Sources/AppVersionManager/AppVersionManagerPlugin.swift:177-195 | version and build number are copied for both apps; the version string is the display string; the bundle id passes through |
| PluginFlow.FetchBothVersions | ios/Sources/AppVersionManager/AppVersionManagerPlugin.swift:145-175 | a missing current version rejects with the Info.plist message whatever the store says; a failed lookup rejects with the store message; success carries both versions and the explicit bundle id, else the main bundle's |
| PluginFlow.UnknownFallbackUnreachable | ios/Sources/AppVersionManager/AppVersionManagerPlugin.swift:171 | after a successful fetch a bundle id was available, so "unknown" is never reported |
| PluginFlow.CurrentMissingIgnoresStore | ios/Sources/AppVersionManager/AppVersionManagerPlugin.swift:156-159 | without a current version, the result does not depend on the store or the device |
| PluginFlow.GetCurrentVersion | ios/Sources/AppVersionManager/AppVersionManagerPlugin.swift:123-143 | it rejects exactly when fetching does, with the same message; otherwise it gives the app info of the fetched pair |
| PluginFlow.CheckForUpdate | ios/Sources/AppVersionManager/AppVersionManagerPlugin.swift:21-44 | it rejects exactly when fetching does; updateAvailable holds exactly when both versions parse and current precedes release; the app info equals getCurrentVersion's |
| PluginFlow.SameVersionNoUpdate | ios/Sources/AppVersionManager/AppVersionManagerPlugin.swift:33-42 | an identical store version is never reported as an update |
| PluginFlow.NotifyDecision | ios/Sources/AppVersionManager/AppVersionManagerPlugin.swift:61-119 | skipped exactly when the scheduler says no; presented exactly when it says yes and forceNotify is true or an update is available; not needed in the remaining case |
| PluginFlow.NotifyResolution.Notified | ios/Sources/AppVersionManager/AppVersionManagerPlugin.swift:80-118 | the notified key is true exactly when the skippedByScheduler key is absent |
| PluginFlow.NotifyResolution.SkippedByScheduler | ios/Sources/AppVersionManager/AppVersionManagerPlugin.swift:80-118 | the key is absent exactly for a presented alert, and true exactly for a scheduler skip |
| PluginFlow.NotifyNewRelease | ios/Sources/AppVersionManager/AppVersionManagerPlugin.swift:46-121 | fetch failures reject with their message; otherwise the app info is reported; presented, skipped and not presented, and the notified and skippedByScheduler keys, follow the decision over forceNotify, the comparator and the scheduler; a skip carries the scheduler snapshot; a presented alert is the non-critical alert for the call's notify options, both fetched versions and the resolved country |
| PluginFlow.ForcedStillThrottled | ios/Sources/AppVersionManager/AppVersionManagerPlugin.swift:61-89 | forceNotify true is still skipped when the scheduler says no, and presented when it says yes |

## Left out

- Network I/O: the `URLSession` request in `performRequest` is out. The lookup is the `lookup` parameter, which gives the decoded body or nil.
- The weak-self guard in `performRequest` (StoreVersionFetcher.swift:55-59) is out. It completes with nil once the fetcher has been released. `fetchBothVersions` keeps the fetcher only in a local (AppVersionManagerPlugin.swift:154), so it may already be gone when the response arrives, and then every lookup would reject with the store message. The model assumes the fetcher is still alive, as the code evidently intends. This claim depends on when the runtime frees the fetcher.
- JSON decoding (`JSONSerialization`): the model starts from the decoded value.
- UIKit and threading are out: `DispatchQueue.main.async`, `UIAlertController`, finding the top view controller, `UIApplication.open`, and the `onPresented` callback. `Present` returns the alert it would show, and the plugin resolves as soon as it is built.
- `URL(string:)` and `UIApplication.canOpenURL` are the parameters `isUrl` and `canOpen`. For the lookup URL, `URL(string:)` is taken to succeed.
- `NSLocalizedString` is modelled by its `value:` default text; localisation tables are out.
- `Calendar.current` day arithmetic: a day is 86400 seconds, and days are counted by truncation toward zero. Time zones and daylight-saving changes are out. The `?? 0` fallback is unreachable because `.day` is always requested.
- `Locale.current.regionCode`, `Bundle.main.bundleIdentifier` and the Info.plist lookup in `VersionHelper.swift` are inputs. `VersionHelper.swift` is not part of this model.
- `UserDefaults` is the class `UserDefaultsStore`, with one instance shared by every scheduler. Its keys and storage format are out.
- Decimal.ParseInt: Swift's `Int(String)` returns nil when the value overflows 64 bits; Dafny integers are unbounded, so the model parses every digit string.
- Text.Lowercased: only ASCII capitals are lowercased; Swift's full Unicode case mapping is out. Strings are sequences of characters, not grapheme clusters.
- `NSNumber` bridging in `as? Bool` / `as? Int` (a JSON number read as a Bool, or the reverse) is out. Values match only their own kind.
- `CAPPluginCall` marshalling (`getString`, `getObject`, `resolve` dictionaries, `reject`) is out. Results are datatypes.
- PluginFlow.NotifyNewRelease: the Swift call to `present` passes no `isCritical` argument, so it would not compile as written. The model presents a non-critical alert, and `isCritical` is an input of `Present` only. No criticality is computed from `critical`, because the code never does.
- `markNotificationShown` is modelled but is not called by any flow, as in the code.
- StoreFetch.CreateAppVersion: the Swift function returns an optional but never nil; the model returns the value.
- The TypeScript definitions, the web stub and the package manifest are declarations or glue, not logic.
