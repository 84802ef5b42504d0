/** The live background tracker (`TimeTracker` in background.js and the message
    handlers beside it) as a state machine over values. Every method and every
    handler is one function from the tracker before to the tracker after, with
    the browser's collaborators made part of the state: local storage is a map
    of site records, armed alarms a map from alarm name to delay, running
    intervals a set of ids, and sent messages a log. Callbacks run in order, one
    after another; the clock and the hostnames the browser resolves are inputs. */
module BackgroundSpec {
  import opened Limits
  import opened Records

  /** What `trackingStates` holds for one hostname. `initialLimit` is absent
      when the record it was built from had none; every comparison with the
      resulting limit is then false (NaN in the source). */
  datatype TrackState = TrackState(
    isTracking: bool,
    isPaused: bool,
    time: int,
    initialLimit: Option<int>,
    totalExtendedTime: int,
    reminder: Option<Reminder>)

  /** The active tab as `chrome.tabs.query` reports it. */
  datatype ActiveTab = ActiveTab(id: TabId, hostname: string)

  /** The fields of `TimeTracker` together with the collaborators it drives.
      `startTime` is a number: before the first tab change it is null, which
      subtraction treats as 0. */
  datatype Tracker = Tracker(
    activeTabId: Option<TabId>,
    startTime: int,
    intervalId: Option<nat>,
    liveIntervals: set<nat>,
    nextIntervalId: nat,
    trackingStates: map<string, TrackState>,
    ignoredSites: set<string>,
    store: map<string, SiteRecord>,
    alarms: map<string, int>,
    outbox: seq<Message>)

  predicate Accrues(s: TrackState) {
    s.isTracking && !s.isPaused
  }

  /** `(initialLimit + (totalExtendedTime || 0)) * 60 * 1000`, absent when the
      base limit is. */
  function LimitMs(s: TrackState): Option<int> {
    match s.initialLimit
    case Some(l) => Some(EffectiveLimitMs(l, s.totalExtendedTime))
    case None => None
  }

  /** `state.time >= totalLimit`. */
  predicate AtLimit(s: TrackState) {
    LimitMs(s).Some? && s.time >= LimitMs(s).value
  }

  /** The delay an alarm for this state is armed with, if any. */
  function ArmDelay(s: TrackState): Option<int> {
    if LimitMs(s).Some? then AlarmDelay(LimitMs(s).value, s.time) else None
  }

  /** The reminder is due when the step from `previous` to the state's time
      crosses its percentage of the effective limit. */
  predicate ReminderDue(s: TrackState, previous: int) {
    s.reminder.Some? && LimitMs(s).Some? && Crosses(previous, s.time, LimitMs(s).value, s.reminder.value.percentage)
  }

  /** What every handler keeps true: interval ids are handed out in order and
      are truthy, the background never stops tracking a site, armed delays are
      positive, and a paused site has no armed alarm. */
  ghost predicate Inv(t: Tracker) {
    && 1 <= t.nextIntervalId
    && (t.intervalId.Some? ==> 1 <= t.intervalId.value < t.nextIntervalId)
    && (forall id :: id in t.liveIntervals ==> 1 <= id < t.nextIntervalId)
    && (forall h :: h in t.trackingStates ==> t.trackingStates[h].isTracking)
    && (forall h :: h in t.alarms ==> t.alarms[h] > 0)
    && (forall h :: h in t.alarms && h in t.trackingStates ==> !t.trackingStates[h].isPaused)
  }

  /** A freshly started background: no session, no states, the persisted
      records and whatever alarms the browser still holds. */
  function Initial(store: map<string, SiteRecord>, armed: map<string, int>): Tracker {
    Tracker(None, 0, None, {}, 1, map[], {}, store, armed, [])
  }

  // ---------------------------------------------------------------------------
  // TimeTracker methods

  /** `pauseTracking`: pause the site, clear its alarm, stop the interval. */
  function PauseTracking(t: Tracker, h: string): Tracker {
    if h !in t.trackingStates then t
    else
      var t1 := t.(trackingStates := t.trackingStates[h := t.trackingStates[h].(isPaused := true)],
                   alarms := t.alarms - {h});
      if t1.intervalId.Some? then
        t1.(liveIntervals := t1.liveIntervals - {t1.intervalId.value}, intervalId := None)
      else t1
  }

  /** `startTrackingForHostname`: for a tracking, unpaused site, restart the
      clock, start a new interval and arm the site's alarm when time is left.
      A live interval is not cleared first. */
  function StartTrackingForHostname(t: Tracker, h: string, now: int): Tracker {
    if h !in t.trackingStates || !Accrues(t.trackingStates[h]) then t
    else
      var id := t.nextIntervalId;
      var t1 := t.(startTime := now, intervalId := Some(id),
                   liveIntervals := t.liveIntervals + {id}, nextIntervalId := id + 1);
      var d := ArmDelay(t.trackingStates[h]);
      if d.Some? then t1.(alarms := t1.alarms[h := d.value]) else t1
  }

  /** The callback of `updateStorage` up to its reminder check, for a state
      `s` whose time was just updated: write the time back, broadcast it, and
      at the limit pause the site and notify the active tab. */
  function StoreAndCheckLimit(t: Tracker, h: string, s: TrackState): Tracker {
    var base := if h in t.store then t.store[h] else NoFields;
    var t1 := t.(store := t.store[h := base.(time := Some(s.time))],
                 outbox := t.outbox + [UpdateTime(h, s.time)]);
    if AtLimit(s) then
      var p := PauseTracking(t1, h);
      p.(outbox := p.outbox + [ShowTimeLimitReached(p.activeTabId, h,
                                 Some(LimitDetails(s.time, s.initialLimit, s.totalExtendedTime)))])
    else t1
  }

  /** The callback of `updateStorage` for a state `s` whose time went from
      `previous` to `s.time`: the steps above, then the reminder when the step
      crosses its threshold. The time before the step is passed in. */
  function UpdateStorage(t: Tracker, h: string, s: TrackState, previous: int): Tracker {
    var t2 := StoreAndCheckLimit(t, h, s);
    if ReminderDue(s, previous) then
      t2.(outbox := t2.outbox + [ShowCustomReminder(t2.activeTabId, s.reminder.value.text)])
    else t2
  }

  /** How the reminder check of background.js ends. It computes the time
      before the step as `state.time - timeSpent`, but `timeSpent` is a local
      of `saveTimeForActiveTab`, not in scope in `updateStorage`: reading it
      throws a ReferenceError. The `&&` reads it only once the time has reached
      the threshold. */
  datatype ReminderCheck = NotReached | ReferenceError

  function ReminderCheckAsWritten(s: TrackState): ReminderCheck {
    if s.reminder.Some? && LimitMs(s).Some? && s.time * 100 >= LimitMs(s).value * s.reminder.value.percentage
    then ReferenceError
    else NotReached
  }

  /** `updateStorage` as written: the error ends the callback where the
      reminder would be sent, after the earlier steps took effect. */
  function UpdateStorageAsWritten(t: Tracker, h: string, s: TrackState): Tracker {
    StoreAndCheckLimit(t, h, s)
  }

  /** `saveTimeForActiveTab`, run by each interval tick and by a tab change:
      the clock restarts at `now`, and the elapsed time goes to `hostname` (the
      active tab's hostname as the browser resolves it) only when its state is
      tracking and not paused. */
  function SaveTimeForActiveTab(t: Tracker, hostname: Option<string>, now: int): Tracker {
    var spent := now - t.startTime;
    var t1 := t.(startTime := now);
    if hostname.Some? && hostname.value in t1.trackingStates && Accrues(t1.trackingStates[hostname.value]) then
      var h := hostname.value;
      var s := t1.trackingStates[h];
      var s1 := s.(time := s.time + spent);
      UpdateStorage(t1.(trackingStates := t1.trackingStates[h := s1]), h, s1, s.time)
    else t1
  }

  /** `updateTimeLimit`: replace both limit fields and, for a tracking,
      unpaused site with time left, clear and re-create its alarm. */
  function UpdateTimeLimit(t: Tracker, h: string, newLimit: Option<int>, newExtendedTime: int): Tracker {
    if h !in t.trackingStates then t
    else
      var s := t.trackingStates[h].(initialLimit := newLimit, totalExtendedTime := newExtendedTime);
      var t1 := t.(trackingStates := t.trackingStates[h := s]);
      var d := ArmDelay(s);
      if d.Some? && Accrues(s) then t1.(alarms := (t1.alarms - {h})[h := d.value]) else t1
  }

  /** The state `initializeTracking` builds from a settings record. */
  function FreshState(settings: SiteRecord): TrackState {
    TrackState(true, false, settings.time.GetOr(0), settings.initialLimit,
               settings.totalExtendedTime.GetOr(0), settings.reminder)
  }

  /** `initializeTracking`: replace the site's state and arm its alarm when
      time is left. An alarm already armed is otherwise left as it is. */
  function InitializeTracking(t: Tracker, h: string, settings: SiteRecord): Tracker {
    var s := FreshState(settings);
    var t1 := t.(trackingStates := t.trackingStates[h := s]);
    var d := ArmDelay(s);
    if d.Some? then t1.(alarms := t1.alarms[h := d.value]) else t1
  }

  /** `resumeTracking`: unpause, then start tracking the site. */
  function ResumeTracking(t: Tracker, h: string, now: int): Tracker {
    if h !in t.trackingStates then t
    else
      StartTrackingForHostname(t.(trackingStates := t.trackingStates[h := t.trackingStates[h].(isPaused := false)]), h, now)
  }

  function IgnoreSite(t: Tracker, h: string): Tracker {
    t.(ignoredSites := t.ignoredSites + {h})
  }

  /** The first half of `handleTabChange`, whatever the new site: when a tab
      was active its time is flushed; `previousHostname` is the hostname the
      browser resolves for that tab (after a navigation inside the same tab it
      is already the new one). Then the interval is cleared, its id kept, and
      the new tab becomes active from `now`. */
  function CloseSession(t: Tracker, tabId: TabId, previousHostname: Option<string>, now: int): Tracker {
    var t1 := if t.activeTabId.Some? then SaveTimeForActiveTab(t, previousHostname, now) else t;
    var t2 := if t1.intervalId.Some? then t1.(liveIntervals := t1.liveIntervals - {t1.intervalId.value}) else t1;
    t2.(activeTabId := Some(tabId), startTime := now)
  }

  /** `handleTabChange` for the tab `tabId` showing `hostname`: close the old
      session, then prompt for a site without a record, or start a session for
      a tracking, unpaused one. Ignored sites get neither. */
  function HandleTabChange(t: Tracker, tabId: TabId, hostname: string, previousHostname: Option<string>, now: int): Tracker {
    var c := CloseSession(t, tabId, previousHostname, now);
    if hostname in c.ignoredSites then c
    else if hostname !in c.store then c.(outbox := c.outbox + [PromptTrack(tabId, hostname)])
    else if hostname in c.trackingStates && Accrues(c.trackingStates[hostname]) then
      StartTrackingForHostname(c, hostname, now)
    else c
  }

  /** The `onUpdated` listener: a tab change is handled only when the active
      tab itself finished loading. */
  function HandleTabUpdated(t: Tracker, tabId: TabId, complete: bool, hostname: string,
                            previousHostname: Option<string>, now: int): Tracker {
    if complete && t.activeTabId == Some(tabId) then HandleTabChange(t, tabId, hostname, previousHostname, now)
    else t
  }

  const DismissPrefix: string := "dismiss_"

  /** `handleDismissAlarm`: re-deliver the notice when the site is in front. */
  function HandleDismissAlarm(t: Tracker, h: string, active: Option<ActiveTab>): Tracker {
    if active.Some? && active.value.hostname == h then
      t.(outbox := t.outbox + [ShowTimeLimitReached(Some(active.value.id), h, None)])
    else t
  }

  /** `handleTimeLimitAlarm`: pause and notify when the site is in front. */
  function HandleTimeLimitAlarm(t: Tracker, h: string, active: Option<ActiveTab>): Tracker {
    if active.Some? && active.value.hostname == h then
      var p := PauseTracking(t, h);
      p.(outbox := p.outbox + [ShowTimeLimitReached(Some(active.value.id), h, None)])
    else t
  }

  /** `handleAlarm`: route by the alarm's name. */
  function HandleAlarm(t: Tracker, name: string, active: Option<ActiveTab>): Tracker {
    if DismissPrefix <= name then HandleDismissAlarm(t, name[|DismissPrefix|..], active)
    else HandleTimeLimitAlarm(t, name, active)
  }

  // ---------------------------------------------------------------------------
  // Message handlers

  /** The record the `addSite` handler stores. */
  function AddSiteSettings(limit: Option<int>, schedule: Option<Schedule>, reminder: Option<Reminder>,
                           category: Option<string>): SiteRecord {
    SiteRecord(Some(0), limit, Some(0), Some(true), Some(false), reminder, schedule, category, None)
  }

  /** `addSite`: store the new record, then initialise tracking from it. */
  function AddSite(t: Tracker, h: string, limit: Option<int>, schedule: Option<Schedule>,
                   reminder: Option<Reminder>, category: Option<string>): Tracker {
    var settings := AddSiteSettings(limit, schedule, reminder, category);
    InitializeTracking(t.(store := t.store[h := settings]), h, settings)
  }

  /** `updateSiteSettings`: merge the settings into the stored record, update
      the limits without touching the accumulated time, and tell the popup. */
  function UpdateSiteSettings(t: Tracker, h: string, settings: SiteRecord): Tracker {
    var current := if h in t.store then t.store[h] else NoFields;
    var updated := Merge(current, settings);
    var t1 := UpdateTimeLimit(t.(store := t.store[h := updated]), h, updated.initialLimit,
                              updated.totalExtendedTime.GetOr(0));
    t1.(outbox := t1.outbox + [SiteSettingsUpdated(h, updated)])
  }

  /** The record `rerunTracking` stores over `base`. */
  function RerunRecord(base: SiteRecord, preserveSettings: bool): SiteRecord {
    base.(isTracking := Some(true), isPaused := Some(false), time := Some(0),
          totalExtendedTime := if preserveSettings then base.totalExtendedTime else Some(0))
  }

  /** `rerunTracking`: reset the stored time, keep the extension only when asked
      to, re-initialise tracking and tell the popup. With no stored record and
      `preserveSettings` set, reading the missing record's extension throws and
      nothing happens. */
  function RerunTracking(t: Tracker, h: string, preserveSettings: bool): Tracker {
    if h !in t.store && preserveSettings then t
    else
      var updated := RerunRecord(if h in t.store then t.store[h] else NoFields, preserveSettings);
      var t1 := InitializeTracking(t.(store := t.store[h := updated]), h, updated);
      t1.(outbox := t1.outbox + [SiteSettingsUpdated(h, updated)])
  }
}
