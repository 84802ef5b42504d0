/** The page script of content.js: the hour and minute picker that sets a new
    site's limit, the "dismiss for 5 minutes" bookkeeping of the limit-reached
    overlay, and the over-limit check made when a page loads. */
module Content {
  import opened Limits
  import opened Records
  import BackgroundSpec

  // ---------------------------------------------------------------------------
  // The limit picker

  /** The option values a picker select is filled with, `0` to `last`. */
  method OptionValues(last: nat) returns (values: seq<int>)
    ensures |values| == last + 1
    ensures forall i :: 0 <= i < |values| ==> values[i] == i
  {
    values := [];
    var i := 0;
    while i <= last
      invariant 0 <= i <= last + 1
      invariant |values| == i
      invariant forall k :: 0 <= k < i ==> values[k] == k
    {
      values := values + [i];
      i := i + 1;
    }
  }

  const HourCount: int := 24
  const MinuteCount: int := 60

  /** The limit, in minutes, sent with `addSite` for the chosen hour and
      minute. */
  function PickerLimit(hours: int, minutes: int): int {
    hours * 60 + minutes
  }

  /** Over the values the picker offers, the limit lies in 0..1439 and gives
      the chosen hour and minute back; 0 hours 0 minutes gives a limit of 0,
      which is not rejected. */
  lemma PickerLimitRoundTrip(hours: int, minutes: int)
    requires 0 <= hours < HourCount && 0 <= minutes < MinuteCount
    ensures 0 <= PickerLimit(hours, minutes) <= 1439
    ensures PickerLimit(hours, minutes) / 60 == hours
    ensures PickerLimit(hours, minutes) % 60 == minutes
    ensures PickerLimit(hours, minutes) == 0 <==> hours == 0 && minutes == 0
  {
  }

  /** A site added with a limit of 0 minutes is at its limit from the start:
      no alarm is armed for it and its first tick pauses it. */
  lemma ZeroLimitIsReachedAtOnce(t: BackgroundSpec.Tracker, h: string, schedule: Option<Schedule>,
                                 reminder: Option<Reminder>, category: Option<string>)
    requires h !in t.alarms
    ensures var r := BackgroundSpec.AddSite(t, h, Some(PickerLimit(0, 0)), schedule, reminder, category);
            && h in r.trackingStates
            && BackgroundSpec.AtLimit(r.trackingStates[h])
            && h !in r.alarms
  {
  }

  // ---------------------------------------------------------------------------
  // Dismissal of the limit-reached overlay

  const DismissMs: int := 5 * 60 * 1000

  /** The overlay for `hostname` stays hidden while its dismissal deadline is
      set (a truthy number) and lies strictly after `now`. */
  predicate Suppressed(dismissed: map<string, int>, hostname: string, now: int) {
    hostname in dismissed && dismissed[hostname] != 0 && dismissed[hostname] > now
  }

  /** The deadlines after dismissing the overlay for `hostname` that was shown
      at `shownAt`: five minutes from the moment it was shown, not from the
      click. */
  function Dismissed(dismissed: map<string, int>, hostname: string, shownAt: int): map<string, int> {
    dismissed[hostname := shownAt + DismissMs]
  }

  /** After a dismissal the overlay for that hostname is hidden exactly until
      five minutes after it was shown, and the re-check scheduled five minutes
      after the click shows it again; other hostnames are unaffected. */
  lemma DismissSuppressesForFiveMinutes(dismissed: map<string, int>, hostname: string, shownAt: int, clickedAt: int)
    requires shownAt >= 0
    ensures var d := Dismissed(dismissed, hostname, shownAt);
            && (forall now :: Suppressed(d, hostname, now) <==> now < shownAt + DismissMs)
            && (clickedAt >= shownAt ==> !Suppressed(d, hostname, clickedAt + DismissMs))
            && (forall g, now :: g != hostname ==> (Suppressed(d, g, now) <==> Suppressed(dismissed, g, now)))
  {
  }

  /** The dismissal deadlines kept in local storage. */
  class DismissalStore {
    var dismissed: map<string, int>

    constructor (dismissed0: map<string, int>)
      ensures dismissed == dismissed0
    {
      dismissed := dismissed0;
    }

    /** `showTimeLimitReachedNotification` at `now`: whether the overlay is
        put on the page. */
    method ShowOverlay(hostname: string, now: int) returns (shown: bool)
      ensures shown <==> !Suppressed(dismissed, hostname, now)
    {
      if hostname in dismissed && dismissed[hostname] != 0 && dismissed[hostname] > now {
        return false;
      }
      return true;
    }

    /** The dismiss button of an overlay shown at `shownAt`. */
    method Dismiss(hostname: string, shownAt: int)
      modifies this
      ensures dismissed == Dismissed(old(dismissed), hostname, shownAt)
    {
      dismissed := dismissed[hostname := shownAt + 5 * 60 * 1000];
    }
  }

  // ---------------------------------------------------------------------------
  // The check at page load

  /** The check at page load as content.js writes it: it reads the record's
      `limit` field. */
  predicate PageLoadOverlayAsWritten(records: map<string, SiteRecord>, hostname: string) {
    && hostname in records
    && records[hostname].limit.Some? && records[hostname].limit.value != 0
    && records[hostname].time.GetOr(0) >= records[hostname].limit.value * MsPerMinute
  }

  /** The check as the background applies it: the record's effective limit,
      base limit plus extensions, is reached. */
  predicate PageLoadOverlay(records: map<string, SiteRecord>, hostname: string) {
    && hostname in records
    && records[hostname].initialLimit.Some?
    && records[hostname].time.GetOr(0)
       >= EffectiveLimitMs(records[hostname].initialLimit.value, records[hostname].totalExtendedTime.GetOr(0))
  }

  /** The corrected check agrees with the background: it holds exactly when
      the state the background builds from the record is at its limit. */
  lemma PageLoadOverlayAgreesWithBackground(records: map<string, SiteRecord>, hostname: string)
    requires hostname in records
    ensures PageLoadOverlay(records, hostname) <==> BackgroundSpec.AtLimit(BackgroundSpec.FreshState(records[hostname]))
  {
  }

  /** The written check never fires for a record `addSite` stored, whatever
      time it has accrued since: those records have no `limit` field. For a
      30-minute site with 30 minutes spent, the corrected check fires and the
      written one does not. */
  lemma PageLoadCheckMissesAddedSites(hostname: string, limit: Option<int>, schedule: Option<Schedule>,
                                      reminder: Option<Reminder>, category: Option<string>, time: int)
    ensures var record := BackgroundSpec.AddSiteSettings(limit, schedule, reminder, category).(time := Some(time));
            !PageLoadOverlayAsWritten(map[hostname := record], hostname)
    ensures var record := BackgroundSpec.AddSiteSettings(Some(30), None, None, None).(time := Some(1800000));
            && PageLoadOverlay(map[hostname := record], hostname)
            && !PageLoadOverlayAsWritten(map[hostname := record], hostname)
  {
  }
}
