/** The live background tracker of background.js: the `TimeTracker` class,
    whose methods update its fields and its in-memory state map step by step,
    and the `addSite`, `updateSiteSettings` and `rerunTracking` message
    handlers. Each method is proved to leave the tracker in the state the
    matching function of `BackgroundSpec` describes, and to keep `Spec.Inv`. */
module Background {
  import opened Limits
  import opened Records
  import Spec = BackgroundSpec
  import Props = BackgroundProperties

  class TimeTracker {
    var activeTabId: Option<TabId>
    var startTime: int
    var intervalId: Option<nat>
    var trackingStates: map<string, Spec.TrackState>
    var ignoredSites: set<string>

    // The browser services the tracker drives: the intervals still running and
    // the next id `setInterval` hands out, the site records in local storage,
    // the armed alarms (name to delay in ms) and every message sent so far.
    var liveIntervals: set<nat>
    var nextIntervalId: nat
    var store: map<string, SiteRecord>
    var alarms: map<string, int>
    var outbox: seq<Message>

    function Model(): Spec.Tracker
      reads this
    {
      Spec.Tracker(activeTabId, startTime, intervalId, liveIntervals, nextIntervalId,
                   trackingStates, ignoredSites, store, alarms, outbox)
    }

    ghost predicate Valid()
      reads this
    {
      Spec.Inv(Model())
    }

    /** A background that starts with the records storage already holds and
        the alarms the browser kept armed. */
    constructor (persisted: map<string, SiteRecord>, armed: map<string, int>)
      requires forall h :: h in armed ==> armed[h] > 0
      ensures Valid()
      ensures Model() == Spec.Initial(persisted, armed)
    {
      activeTabId := None;
      startTime := 0;
      intervalId := None;
      trackingStates := map[];
      ignoredSites := {};
      liveIntervals := {};
      nextIntervalId := 1;
      store := persisted;
      alarms := armed;
      outbox := [];
      new;
      Props.InitialKeepsInv(persisted, armed);
    }

    method PauseTracking(hostname: string)
      requires Valid()
      modifies this
      ensures Valid()
      ensures Model() == Spec.PauseTracking(old(Model()), hostname)
    {
      ghost var before := Model();
      Props.PauseTrackingKeepsInv(before, hostname);
      if hostname !in trackingStates {
        return;
      }
      var state := trackingStates[hostname];
      trackingStates := trackingStates[hostname := state.(isPaused := true)];
      alarms := alarms - {hostname};
      if intervalId.Some? {
        liveIntervals := liveIntervals - {intervalId.value};
        intervalId := None;
      }
    }

    method StartTrackingForHostname(hostname: string, now: int)
      requires Valid()
      modifies this
      ensures Valid()
      ensures Model() == Spec.StartTrackingForHostname(old(Model()), hostname, now)
    {
      ghost var before := Model();
      Props.StartTrackingForHostnameKeepsInv(before, hostname, now);
      if hostname !in trackingStates || !Spec.Accrues(trackingStates[hostname]) {
        return;
      }
      var state := trackingStates[hostname];
      startTime := now;
      var id := nextIntervalId;
      nextIntervalId := nextIntervalId + 1;
      liveIntervals := liveIntervals + {id};
      intervalId := Some(id);
      if state.initialLimit.Some? {
        var totalLimit := EffectiveLimitMs(state.initialLimit.value, state.totalExtendedTime);
        var remainingTime := totalLimit - state.time;
        if remainingTime > 0 {
          alarms := alarms[hostname := remainingTime];
        }
      }
    }

    /** The storage callback of `updateStorage`, with the time before the
        update passed in as `previousTime`. */
    method UpdateStorage(hostname: string, state: Spec.TrackState, previousTime: int)
      requires Valid()
      modifies this
      ensures Valid()
      ensures Model() == Spec.UpdateStorage(old(Model()), hostname, state, previousTime)
    {
      ghost var before := Model();
      Props.UpdateStorageKeepsInv(before, hostname, state, previousTime);
      var siteData := if hostname in store then store[hostname] else NoFields;
      store := store[hostname := siteData.(time := Some(state.time))];
      outbox := outbox + [UpdateTime(hostname, state.time)];
      var totalLimit := Spec.LimitMs(state);
      if totalLimit.Some? && state.time >= totalLimit.value {
        PauseTracking(hostname);
        outbox := outbox + [ShowTimeLimitReached(activeTabId, hostname,
                              Some(LimitDetails(state.time, state.initialLimit, state.totalExtendedTime)))];
      }
      if state.reminder.Some? && totalLimit.Some? {
        if Crosses(previousTime, state.time, totalLimit.value, state.reminder.value.percentage) {
          outbox := outbox + [ShowCustomReminder(activeTabId, state.reminder.value.text)];
        }
      }
    }

    /** One interval tick, or the flush at a tab change. `hostname` is the
        hostname the browser resolves for the active tab. */
    method SaveTimeForActiveTab(hostname: Option<string>, now: int)
      requires Valid()
      modifies this
      ensures Valid()
      ensures Model() == Spec.SaveTimeForActiveTab(old(Model()), hostname, now)
    {
      var timeSpent := now - startTime;
      startTime := now;
      if hostname.Some? && hostname.value in trackingStates && Spec.Accrues(trackingStates[hostname.value]) {
        var h := hostname.value;
        var state := trackingStates[h];
        var previousTime := state.time;
        state := state.(time := state.time + timeSpent);
        Props.AccrueKeepsInv(old(Model()), h, state, now);
        trackingStates := trackingStates[h := state];
        UpdateStorage(h, state, previousTime);
      }
    }

    method UpdateTimeLimit(hostname: string, newLimit: Option<int>, newExtendedTime: int)
      requires Valid()
      modifies this
      ensures Valid()
      ensures Model() == Spec.UpdateTimeLimit(old(Model()), hostname, newLimit, newExtendedTime)
    {
      ghost var before := Model();
      Props.UpdateTimeLimitKeepsInv(before, hostname, newLimit, newExtendedTime);
      if hostname !in trackingStates {
        return;
      }
      var state := trackingStates[hostname].(initialLimit := newLimit, totalExtendedTime := newExtendedTime);
      trackingStates := trackingStates[hostname := state];
      if newLimit.Some? {
        var remainingTime := EffectiveLimitMs(newLimit.value, newExtendedTime) - state.time;
        if remainingTime > 0 && state.isTracking && !state.isPaused {
          alarms := alarms - {hostname};
          alarms := alarms[hostname := remainingTime];
        }
      }
    }

    method InitializeTracking(hostname: string, settings: SiteRecord)
      requires Valid()
      modifies this
      ensures Valid()
      ensures Model() == Spec.InitializeTracking(old(Model()), hostname, settings)
    {
      ghost var before := Model();
      Props.InitializeTrackingKeepsInv(before, hostname, settings);
      var trackingState := Spec.TrackState(true, false, settings.time.GetOr(0), settings.initialLimit,
                                           settings.totalExtendedTime.GetOr(0), settings.reminder);
      trackingStates := trackingStates[hostname := trackingState];
      if settings.initialLimit.Some? {
        var totalLimit := EffectiveLimitMs(settings.initialLimit.value, settings.totalExtendedTime.GetOr(0));
        var remainingTime := totalLimit - settings.time.GetOr(0);
        if remainingTime > 0 {
          alarms := alarms[hostname := remainingTime];
        }
      }
    }

    method ResumeTracking(hostname: string, now: int)
      requires Valid()
      modifies this
      ensures Valid()
      ensures Model() == Spec.ResumeTracking(old(Model()), hostname, now)
    {
      if hostname !in trackingStates {
        return;
      }
      trackingStates := trackingStates[hostname := trackingStates[hostname].(isPaused := false)];
      StartTrackingForHostname(hostname, now);
    }

    method IgnoreSite(hostname: string)
      requires Valid()
      modifies this
      ensures Valid()
      ensures Model() == Spec.IgnoreSite(old(Model()), hostname)
    {
      ignoredSites := ignoredSites + {hostname};
    }

    /** The first half of `handleTabChange`: flush the previous tab's time,
        clear the interval and make `tabId` the active tab from `now`. */
    method CloseSession(tabId: TabId, previousHostname: Option<string>, now: int)
      requires Valid()
      modifies this
      ensures Valid()
      ensures Model() == Spec.CloseSession(old(Model()), tabId, previousHostname, now)
    {
      ghost var before := Model();
      Props.CloseSessionKeepsInv(before, tabId, previousHostname, now);
      if activeTabId.Some? {
        SaveTimeForActiveTab(previousHostname, now);
      }
      if intervalId.Some? {
        liveIntervals := liveIntervals - {intervalId.value};
      }
      activeTabId := Some(tabId);
      startTime := now;
    }

    /** A tab became active, or the active tab finished loading. */
    method HandleTabChange(tabId: TabId, hostname: string, previousHostname: Option<string>, now: int)
      requires Valid()
      modifies this
      ensures Valid()
      ensures Model() == Spec.HandleTabChange(old(Model()), tabId, hostname, previousHostname, now)
    {
      ghost var before := Model();
      Props.HandleTabChangeKeepsInv(before, tabId, hostname, previousHostname, now);
      CloseSession(tabId, previousHostname, now);
      if hostname in ignoredSites {
        return;
      }
      if hostname !in store {
        outbox := outbox + [PromptTrack(tabId, hostname)];
      } else if hostname in trackingStates && Spec.Accrues(trackingStates[hostname]) {
        StartTrackingForHostname(hostname, now);
      }
    }

    /** A tab was updated; `complete` says whether it finished loading. */
    method HandleTabUpdated(tabId: TabId, complete: bool, hostname: string, previousHostname: Option<string>, now: int)
      requires Valid()
      modifies this
      ensures Valid()
      ensures Model() == Spec.HandleTabUpdated(old(Model()), tabId, complete, hostname, previousHostname, now)
    {
      if complete && activeTabId == Some(tabId) {
        HandleTabChange(tabId, hostname, previousHostname, now);
      }
    }

    method HandleDismissAlarm(hostname: string, active: Option<Spec.ActiveTab>)
      requires Valid()
      modifies this
      ensures Valid()
      ensures Model() == Spec.HandleDismissAlarm(old(Model()), hostname, active)
    {
      if active.Some? && active.value.hostname == hostname {
        outbox := outbox + [ShowTimeLimitReached(Some(active.value.id), hostname, None)];
      }
    }

    method HandleTimeLimitAlarm(hostname: string, active: Option<Spec.ActiveTab>)
      requires Valid()
      modifies this
      ensures Valid()
      ensures Model() == Spec.HandleTimeLimitAlarm(old(Model()), hostname, active)
    {
      if active.Some? && active.value.hostname == hostname {
        PauseTracking(hostname);
        outbox := outbox + [ShowTimeLimitReached(Some(active.value.id), hostname, None)];
      }
    }

    /** An alarm fired; `active` is the active tab at that moment. */
    method HandleAlarm(name: string, active: Option<Spec.ActiveTab>)
      requires Valid()
      modifies this
      ensures Valid()
      ensures Model() == Spec.HandleAlarm(old(Model()), name, active)
    {
      if Spec.DismissPrefix <= name {
        HandleDismissAlarm(name[|Spec.DismissPrefix|..], active);
      } else {
        HandleTimeLimitAlarm(name, active);
      }
    }
  }

  /** The `addSite` message: store the new record, then initialise tracking. */
  method AddSite(tracker: TimeTracker, hostname: string, limit: Option<int>, schedule: Option<Schedule>,
                 reminder: Option<Reminder>, category: Option<string>)
    requires tracker.Valid()
    modifies tracker
    ensures tracker.Valid()
    ensures tracker.Model() == Spec.AddSite(old(tracker.Model()), hostname, limit, schedule, reminder, category)
  {
    var settings := SiteRecord(Some(0), limit, Some(0), Some(true), Some(false), reminder, schedule, category, None);
    tracker.store := tracker.store[hostname := settings];
    tracker.InitializeTracking(hostname, settings);
  }

  /** The `updateSiteSettings` message: merge, then update the limits. */
  method UpdateSiteSettings(tracker: TimeTracker, hostname: string, settings: SiteRecord)
    requires tracker.Valid()
    modifies tracker
    ensures tracker.Valid()
    ensures tracker.Model() == Spec.UpdateSiteSettings(old(tracker.Model()), hostname, settings)
  {
    var currentSiteData := if hostname in tracker.store then tracker.store[hostname] else NoFields;
    var updatedData := Merge(currentSiteData, settings);
    tracker.store := tracker.store[hostname := updatedData];
    tracker.UpdateTimeLimit(hostname, updatedData.initialLimit, updatedData.totalExtendedTime.GetOr(0));
    tracker.outbox := tracker.outbox + [SiteSettingsUpdated(hostname, updatedData)];
  }

  /** The `rerunTracking` message. */
  method RerunTracking(tracker: TimeTracker, hostname: string, preserveSettings: bool)
    requires tracker.Valid()
    modifies tracker
    ensures tracker.Valid()
    ensures tracker.Model() == Spec.RerunTracking(old(tracker.Model()), hostname, preserveSettings)
  {
    if hostname !in tracker.store && preserveSettings {
      // `siteData.totalExtendedTime` on a missing record throws.
      return;
    }
    var siteData := if hostname in tracker.store then tracker.store[hostname] else NoFields;
    var updatedData := siteData.(isTracking := Some(true), isPaused := Some(false), time := Some(0),
                                 totalExtendedTime := if preserveSettings then siteData.totalExtendedTime else Some(0));
    tracker.store := tracker.store[hostname := updatedData];
    tracker.InitializeTracking(hostname, updatedData);
    tracker.outbox := tracker.outbox + [SiteSettingsUpdated(hostname, updatedData)];
  }
}
