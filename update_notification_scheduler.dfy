/**
 * UpdateNotificationScheduler: throttles the update alert by a cadence, using the
 * last time it was shown and the last time it was dismissed, both persisted.
 */
module Scheduling {
  import opened Basics
  import opened NotifyOptions

  /** An instant, in whole seconds since some fixed reference date. */
  type Date = int

  const SecondsPerDay: int := 86400

  /**
   * The `.day` component between two instants: whole elapsed days, truncated
   * toward zero, negative when `to` precedes `from`.
   */
  function DaysBetween(from: Date, to: Date): (days: int)
    ensures from <= to ==> 0 <= days && days * SecondsPerDay <= to - from < (days + 1) * SecondsPerDay
    ensures to < from ==> days <= 0 && (days - 1) * SecondsPerDay < to - from <= days * SecondsPerDay
  {
    if from <= to then (to - from) / SecondsPerDay else -((from - to) / SecondsPerDay)
  }

  /** The number of days each throttled cadence waits. */
  function RequiredDays(f: NotificationFrequency): nat
    requires f != Always
  {
    match f
    case Daily => 1
    case Weekly => 7
    case Monthly => 30
  }

  /** `shouldShowBasedOnInterval(days:)` over the two stored dates. */
  function ShouldShowBasedOnInterval(days: int, lastNotification: Option<Date>, lastDismiss: Option<Date>, now: Date): (r: bool)
    ensures lastDismiss.Some? ==> (r <==> DaysBetween(lastDismiss.value, now) >= days)
    ensures lastDismiss.None? && lastNotification.None? ==> r
    ensures lastDismiss.None? && lastNotification.Some? ==> (r <==> DaysBetween(lastNotification.value, now) >= days)
  {
    match lastDismiss
    case Some(dismissed) => !(DaysBetween(dismissed, now) < days)
    case None =>
      match lastNotification
      case None => true
      case Some(notified) => DaysBetween(notified, now) >= days
  }

  /** `shouldShowNotification()` over the two stored dates. */
  function ShouldShow(frequency: NotificationFrequency, lastNotification: Option<Date>, lastDismiss: Option<Date>, now: Date): (r: bool)
    ensures frequency == Always ==> r
    ensures frequency == Daily ==> r == ShouldShowBasedOnInterval(1, lastNotification, lastDismiss, now)
    ensures frequency == Weekly ==> r == ShouldShowBasedOnInterval(7, lastNotification, lastDismiss, now)
    ensures frequency == Monthly ==> r == ShouldShowBasedOnInterval(30, lastNotification, lastDismiss, now)
  {
    if frequency == Always then true
    else ShouldShowBasedOnInterval(RequiredDays(frequency), lastNotification, lastDismiss, now)
  }

  // ---------------------------------------------------------------------------
  // Properties of the cadence rule
  // ---------------------------------------------------------------------------

  /** Whole elapsed days never decrease as time goes on. */
  lemma DaysBetweenMonotonic(from: Date, t1: Date, t2: Date)
    requires t1 <= t2
    ensures DaysBetween(from, t1) <= DaysBetween(from, t2)
  {
  }

  /** Once the alert may be shown, it stays allowed as time passes (until the state changes). */
  lemma ShouldShowMonotonicInTime(f: NotificationFrequency, lastNotification: Option<Date>, lastDismiss: Option<Date>, t1: Date, t2: Date)
    requires t1 <= t2
    ensures ShouldShow(f, lastNotification, lastDismiss, t1) ==> ShouldShow(f, lastNotification, lastDismiss, t2)
  {
    if lastDismiss.Some? {
      DaysBetweenMonotonic(lastDismiss.value, t1, t2);
    } else if lastNotification.Some? {
      DaysBetweenMonotonic(lastNotification.value, t1, t2);
    }
  }

  /** With a dismissal on record, the last-shown date plays no part. */
  lemma DismissalTakesPriority(f: NotificationFrequency, shown1: Option<Date>, shown2: Option<Date>, dismissed: Date, now: Date)
    ensures ShouldShow(f, shown1, Some(dismissed), now) == ShouldShow(f, shown2, Some(dismissed), now)
  {
  }

  /** A dismissal or a showing at `t` suppresses every throttled cadence for its whole window. */
  lemma FreshDateSuppresses(f: NotificationFrequency, t: Date, now: Date)
    requires f != Always
    requires t <= now < t + RequiredDays(f) * SecondsPerDay
    ensures !ShouldShow(f, None, Some(t), now)
    ensures !ShouldShow(f, Some(t), None, now)
  {
  }

  /** Day boundaries: 23 hours is not a day; 25 hours is. A week after a dismissal is 7 days. */
  lemma CadenceExamples(t0: Date)
    ensures !ShouldShow(Daily, Some(t0), None, t0 + 23 * 3600)
    ensures ShouldShow(Daily, Some(t0), None, t0 + 25 * 3600)
    ensures !ShouldShow(Weekly, None, Some(t0), t0 + 6 * SecondsPerDay)
    ensures ShouldShow(Weekly, None, Some(t0), t0 + 7 * SecondsPerDay)
    ensures ShouldShow(Weekly, Some(t0), Some(t0 - 8 * SecondsPerDay), t0)
  {
  }

  // ---------------------------------------------------------------------------
  // Persisted state and the scheduler object
  // ---------------------------------------------------------------------------

  /**
   * The two `UserDefaults.standard` entries the scheduler uses, under the keys
   * "AppVersionManager.lastNotificationDate" and "AppVersionManager.lastDismissDate".
   * One store is shared by every scheduler, as the real defaults are.
   */
  class UserDefaultsStore {
    var lastNotificationDate: Option<Date>
    var lastDismissDate: Option<Date>

    constructor()
      ensures lastNotificationDate.None? && lastDismissDate.None?
    {
      lastNotificationDate := None;
      lastDismissDate := None;
    }
  }

  /** A value in the debug dictionary. */
  datatype DebugValue = TextValue(text: string) | Flag(flag: bool) | Timestamp(date: Date) | Count(days: int)

  /** The dictionary `getDebugInfo()` reports for the given stored dates. */
  function DebugSnapshot(frequency: NotificationFrequency, lastNotification: Option<Date>, lastDismiss: Option<Date>, now: Date): (info: map<string, DebugValue>)
    ensures info.Keys ==
      {"frequency", "shouldShow"}
      + (if lastNotification.Some? then {"lastNotificationDate", "daysSinceNotification"} else {})
      + (if lastDismiss.Some? then {"lastDismissDate", "daysSinceDismiss"} else {})
    ensures info["frequency"] == TextValue(FrequencyRawValue(frequency))
    ensures info["shouldShow"] == Flag(ShouldShow(frequency, lastNotification, lastDismiss, now))
    ensures lastNotification.Some? ==>
      info["lastNotificationDate"] == Timestamp(lastNotification.value) &&
      info["daysSinceNotification"] == Count(DaysBetween(lastNotification.value, now))
    ensures lastDismiss.Some? ==>
      info["lastDismissDate"] == Timestamp(lastDismiss.value) &&
      info["daysSinceDismiss"] == Count(DaysBetween(lastDismiss.value, now))
  {
    var base := map["frequency" := TextValue(FrequencyRawValue(frequency)),
                    "shouldShow" := Flag(ShouldShow(frequency, lastNotification, lastDismiss, now))];
    var withShown :=
      if lastNotification.Some? then
        base["lastNotificationDate" := Timestamp(lastNotification.value)]
            ["daysSinceNotification" := Count(DaysBetween(lastNotification.value, now))]
      else base;
    if lastDismiss.Some? then
      withShown["lastDismissDate" := Timestamp(lastDismiss.value)]
               ["daysSinceDismiss" := Count(DaysBetween(lastDismiss.value, now))]
    else withShown
  }

  class UpdateNotificationScheduler {
    const defaults: UserDefaultsStore
    const options: NotifyNewReleaseOptions

    constructor(defaults: UserDefaultsStore, options: NotifyNewReleaseOptions)
      ensures this.defaults == defaults && this.options == options
    {
      this.defaults := defaults;
      this.options := options;
    }

    /** `getLastNotificationDate()`: the stored shown date, if any. */
    function GetLastNotificationDate(): (d: Option<Date>)
      reads defaults
      ensures d == defaults.lastNotificationDate
    {
      defaults.lastNotificationDate
    }

    /** `getLastDismissDate()`: the stored dismissal date, if any. */
    function GetLastDismissDate(): (d: Option<Date>)
      reads defaults
      ensures d == defaults.lastDismissDate
    {
      defaults.lastDismissDate
    }

    /** `shouldShowNotification()` at `now`, over the stored dates. */
    function ShouldShowNotification(now: Date): (r: bool)
      reads defaults
      ensures options.frequency == Always ==> r
      ensures options.frequency != Always ==>
        (r <==> ShouldShowBasedOnInterval(RequiredDays(options.frequency), defaults.lastNotificationDate, defaults.lastDismissDate, now))
    {
      ShouldShow(options.frequency, GetLastNotificationDate(), GetLastDismissDate(), now)
    }

    method MarkNotificationShown(now: Date)
      modifies defaults
      ensures GetLastNotificationDate() == Some(now)
      ensures GetLastDismissDate() == old(GetLastDismissDate())
    {
      defaults.lastNotificationDate := Some(now);
    }

    method MarkNotificationDismissed(now: Date)
      modifies defaults
      ensures GetLastDismissDate() == Some(now)
      ensures GetLastNotificationDate().None?
      ensures options.frequency != Always ==> !ShouldShowNotification(now)
    {
      defaults.lastDismissDate := Some(now);
      defaults.lastNotificationDate := None;
    }

    method Reset()
      modifies defaults
      ensures GetLastNotificationDate().None? && GetLastDismissDate().None?
      ensures forall t :: ShouldShowNotification(t)
    {
      defaults.lastNotificationDate := None;
      defaults.lastDismissDate := None;
    }

    /** `getDebugInfo()`: builds the dictionary entry by entry and changes nothing. */
    method GetDebugInfo(now: Date) returns (info: map<string, DebugValue>)
      ensures info == DebugSnapshot(options.frequency, GetLastNotificationDate(), GetLastDismissDate(), now)
      ensures info["shouldShow"] == Flag(ShouldShowNotification(now))
    {
      info := map["frequency" := TextValue(FrequencyRawValue(options.frequency)),
                  "shouldShow" := Flag(ShouldShowNotification(now))];
      var lastNotification := GetLastNotificationDate();
      if lastNotification.Some? {
        info := info["lastNotificationDate" := Timestamp(lastNotification.value)];
        info := info["daysSinceNotification" := Count(DaysBetween(lastNotification.value, now))];
      }
      var lastDismiss := GetLastDismissDate();
      if lastDismiss.Some? {
        info := info["lastDismissDate" := Timestamp(lastDismiss.value)];
        info := info["daysSinceDismiss" := Count(DaysBetween(lastDismiss.value, now))];
      }
    }
  }
}
