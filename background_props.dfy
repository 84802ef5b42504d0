/** What the background tracker guarantees, stated over `BackgroundSpec`:
    the invariant every handler keeps, what one tick does, when alarms are armed,
    what the limit and settings handlers change, how a tab change and an alarm
    are routed, and what a whole run of interval ticks adds up to. */
module BackgroundProperties {
  import opened Limits
  import opened Records
  import opened BackgroundSpec

  // ---------------------------------------------------------------------------
  // The invariant

  lemma InitialKeepsInv(store: map<string, SiteRecord>, armed: map<string, int>)
    requires forall h :: h in armed ==> armed[h] > 0
    ensures Inv(Initial(store, armed))
  {
  }

  lemma PauseTrackingKeepsInv(t: Tracker, h: string)
    requires Inv(t)
    ensures Inv(PauseTracking(t, h))
  {
  }

  lemma StartTrackingForHostnameKeepsInv(t: Tracker, h: string, now: int)
    requires Inv(t)
    ensures Inv(StartTrackingForHostname(t, h, now))
  {
  }

  lemma StoreAndCheckLimitKeepsInv(t: Tracker, h: string, s: TrackState)
    requires Inv(t)
    ensures Inv(StoreAndCheckLimit(t, h, s))
  {
    var base := if h in t.store then t.store[h] else NoFields;
    PauseTrackingKeepsInv(t.(store := t.store[h := base.(time := Some(s.time))],
                             outbox := t.outbox + [UpdateTime(h, s.time)]), h);
  }

  lemma UpdateStorageKeepsInv(t: Tracker, h: string, s: TrackState, previous: int)
    requires Inv(t)
    ensures Inv(UpdateStorage(t, h, s, previous))
  {
    StoreAndCheckLimitKeepsInv(t, h, s);
  }

  lemma SaveTimeForActiveTabKeepsInv(t: Tracker, hostname: Option<string>, now: int)
    requires Inv(t)
    ensures Inv(SaveTimeForActiveTab(t, hostname, now))
  {
    if hostname.Some? && hostname.value in t.trackingStates && Accrues(t.trackingStates[hostname.value]) {
      var h := hostname.value;
      var s := t.trackingStates[h];
      var s1 := s.(time := s.time + (now - t.startTime));
      var t1 := t.(startTime := now, trackingStates := t.trackingStates[h := s1]);
      AccrueKeepsInv(t, h, s1, now);
      UpdateStorageKeepsInv(t1, h, s1, s.time);
      assert SaveTimeForActiveTab(t, hostname, now) == UpdateStorage(t1, h, s1, s.time);
    }
  }

  /** Writing back a tracking state with the same pause flag keeps the
      invariant. */
  lemma AccrueKeepsInv(t: Tracker, h: string, s1: TrackState, now: int)
    requires Inv(t) && h in t.trackingStates
    requires s1.isTracking && s1.isPaused == t.trackingStates[h].isPaused
    ensures Inv(t.(startTime := now, trackingStates := t.trackingStates[h := s1]))
  {
  }

  lemma UpdateTimeLimitKeepsInv(t: Tracker, h: string, newLimit: Option<int>, newExtendedTime: int)
    requires Inv(t)
    ensures Inv(UpdateTimeLimit(t, h, newLimit, newExtendedTime))
  {
  }

  lemma InitializeTrackingKeepsInv(t: Tracker, h: string, settings: SiteRecord)
    requires Inv(t)
    ensures Inv(InitializeTracking(t, h, settings))
  {
  }

  lemma ResumeTrackingKeepsInv(t: Tracker, h: string, now: int)
    requires Inv(t)
    ensures Inv(ResumeTracking(t, h, now))
  {
    if h in t.trackingStates {
      StartTrackingForHostnameKeepsInv(t.(trackingStates := t.trackingStates[h := t.trackingStates[h].(isPaused := false)]), h, now);
    }
  }

  lemma CloseSessionKeepsInv(t: Tracker, tabId: TabId, previousHostname: Option<string>, now: int)
    requires Inv(t)
    ensures var c := CloseSession(t, tabId, previousHostname, now);
            && Inv(c)
            && c.ignoredSites == t.ignoredSites
            && c.activeTabId == Some(tabId) && c.startTime == now
            && (c.intervalId.Some? ==> c.intervalId.value !in c.liveIntervals)
  {
    if t.activeTabId.Some? {
      SaveTimeForActiveTabKeepsInv(t, previousHostname, now);
      var h := previousHostname;
      if !(h.Some? && h.value in t.trackingStates && Accrues(t.trackingStates[h.value])) {
        TickWithoutAccrual(t, h, now);
      } else {
        TickOnTrackedSite(t, h.value, now);
      }
    }
  }

  lemma HandleTabChangeKeepsInv(t: Tracker, tabId: TabId, hostname: string, previousHostname: Option<string>, now: int)
    requires Inv(t)
    ensures Inv(HandleTabChange(t, tabId, hostname, previousHostname, now))
  {
    CloseSessionKeepsInv(t, tabId, previousHostname, now);
    StartTrackingForHostnameKeepsInv(CloseSession(t, tabId, previousHostname, now), hostname, now);
  }

  lemma HandleTabUpdatedKeepsInv(t: Tracker, tabId: TabId, complete: bool, hostname: string,
                                 previousHostname: Option<string>, now: int)
    requires Inv(t)
    ensures Inv(HandleTabUpdated(t, tabId, complete, hostname, previousHostname, now))
  {
    if complete && t.activeTabId == Some(tabId) {
      HandleTabChangeKeepsInv(t, tabId, hostname, previousHostname, now);
    }
  }

  lemma HandleAlarmKeepsInv(t: Tracker, name: string, active: Option<ActiveTab>)
    requires Inv(t)
    ensures Inv(HandleAlarm(t, name, active))
  {
    PauseTrackingKeepsInv(t, name);
  }

  lemma AddSiteKeepsInv(t: Tracker, h: string, limit: Option<int>, schedule: Option<Schedule>,
                        reminder: Option<Reminder>, category: Option<string>)
    requires Inv(t)
    ensures Inv(AddSite(t, h, limit, schedule, reminder, category))
  {
    var settings := AddSiteSettings(limit, schedule, reminder, category);
    InitializeTrackingKeepsInv(t.(store := t.store[h := settings]), h, settings);
  }

  lemma UpdateSiteSettingsKeepsInv(t: Tracker, h: string, settings: SiteRecord)
    requires Inv(t)
    ensures Inv(UpdateSiteSettings(t, h, settings))
  {
    var current := if h in t.store then t.store[h] else NoFields;
    var updated := Merge(current, settings);
    UpdateTimeLimitKeepsInv(t.(store := t.store[h := updated]), h, updated.initialLimit, updated.totalExtendedTime.GetOr(0));
  }

  lemma RerunTrackingKeepsInv(t: Tracker, h: string, preserveSettings: bool)
    requires Inv(t)
    ensures Inv(RerunTracking(t, h, preserveSettings))
  {
    if !(h !in t.store && preserveSettings) {
      var updated := RerunRecord(if h in t.store then t.store[h] else NoFields, preserveSettings);
      InitializeTrackingKeepsInv(t.(store := t.store[h := updated]), h, updated);
    }
  }

  // ---------------------------------------------------------------------------
  // One tick

  /** The state a tick leaves for a tracked site: the elapsed time added, and
      paused exactly when that reaches the effective limit. */
  function Ticked(s: TrackState, spent: int): TrackState {
    var s1 := s.(time := s.time + spent);
    s1.(isPaused := AtLimit(s1))
  }

  /** A tick for a tracking, unpaused site adds exactly `now - startTime` to its
      time and to no other site's, restarts the clock, and sends the time
      update, then the limit notice when the limit is reached, then the reminder
      when the step crosses its threshold. */
  lemma TickOnTrackedSite(t: Tracker, h: string, now: int)
    requires h in t.trackingStates && Accrues(t.trackingStates[h])
    ensures var s := t.trackingStates[h];
            var s1 := s.(time := s.time + (now - t.startTime));
            var r := SaveTimeForActiveTab(t, Some(h), now);
            && r.startTime == now
            && r.activeTabId == t.activeTabId
            && r.ignoredSites == t.ignoredSites
            && r.trackingStates == t.trackingStates[h := Ticked(s, now - t.startTime)]
            && r.outbox == t.outbox + [UpdateTime(h, s1.time)]
                 + (if AtLimit(s1) then [ShowTimeLimitReached(t.activeTabId, h, Some(LimitDetails(s1.time, s.initialLimit, s.totalExtendedTime)))] else [])
                 + (if ReminderDue(s1, s.time) then [ShowCustomReminder(t.activeTabId, s.reminder.value.text)] else [])
  {
  }

  /** Reaching the limit pauses the site, clears its alarm and stops the
      interval; short of the limit, alarms and intervals are untouched. */
  lemma TickAtLimitPauses(t: Tracker, h: string, now: int)
    requires h in t.trackingStates && Accrues(t.trackingStates[h])
    ensures var s1 := t.trackingStates[h].(time := t.trackingStates[h].time + (now - t.startTime));
            var r := SaveTimeForActiveTab(t, Some(h), now);
            && (AtLimit(s1) ==>
                  && r.trackingStates[h].isPaused
                  && h !in r.alarms && r.alarms == t.alarms - {h}
                  && r.intervalId == None
                  && (t.intervalId.Some? ==> t.intervalId.value !in r.liveIntervals))
            && (!AtLimit(s1) ==>
                  && !r.trackingStates[h].isPaused
                  && r.alarms == t.alarms && r.intervalId == t.intervalId && r.liveIntervals == t.liveIntervals)
  {
  }

  /** A tick for a site that is missing, not tracking or paused changes
      nothing but the clock. */
  lemma TickWithoutAccrual(t: Tracker, hostname: Option<string>, now: int)
    requires !(hostname.Some? && hostname.value in t.trackingStates && Accrues(t.trackingStates[hostname.value]))
    ensures SaveTimeForActiveTab(t, hostname, now) == t.(startTime := now)
  {
  }

  // ---------------------------------------------------------------------------
  // Alarms

  /** The site's alarm is under its effective limit and accruing. */
  predicate Armable(s: TrackState) {
    Accrues(s) && LimitMs(s).Some? && s.time < LimitMs(s).value
  }

  /** Starting a session arms the site's alarm with the time left exactly when
      it is tracking, unpaused and under the limit; otherwise alarms stay. */
  lemma StartArmsOnlyUnderLimit(t: Tracker, h: string, now: int)
    requires h in t.trackingStates
    ensures var s := t.trackingStates[h];
            var r := StartTrackingForHostname(t, h, now);
            && (Armable(s) ==> r.alarms == t.alarms[h := LimitMs(s).value - s.time])
            && (!Armable(s) ==> r.alarms == t.alarms)
  {
  }

  /** Initialising arms the alarm exactly when the new state is under its limit. */
  lemma InitializeArmsOnlyUnderLimit(t: Tracker, h: string, settings: SiteRecord)
    ensures var s := FreshState(settings);
            var r := InitializeTracking(t, h, settings);
            && (Armable(s) ==> r.alarms == t.alarms[h := LimitMs(s).value - s.time])
            && (!Armable(s) ==> r.alarms == t.alarms)
  {
  }

  /** `updateTimeLimit` is a no-op for an unknown site. For a known one it
      changes only the two limit fields, keeps time, tracking and pause, and
      re-arms the alarm only when the site is tracking, unpaused and under the
      new limit. */
  lemma UpdateTimeLimitKeepsProgress(t: Tracker, h: string, newLimit: Option<int>, newExtendedTime: int)
    ensures h !in t.trackingStates ==> UpdateTimeLimit(t, h, newLimit, newExtendedTime) == t
    ensures h in t.trackingStates ==>
      var old_s := t.trackingStates[h];
      var r := UpdateTimeLimit(t, h, newLimit, newExtendedTime);
      var s := r.trackingStates[h];
      && h in r.trackingStates
      && r.trackingStates == t.trackingStates[h := s]
      && s.initialLimit == newLimit && s.totalExtendedTime == newExtendedTime
      && s.time == old_s.time && s.isTracking == old_s.isTracking && s.isPaused == old_s.isPaused
      && s.reminder == old_s.reminder
      && (Armable(s) ==> r.alarms == t.alarms[h := LimitMs(s).value - s.time])
      && (!Armable(s) ==> r.alarms == t.alarms)
      && r == t.(trackingStates := r.trackingStates, alarms := r.alarms)
  {
  }

  // ---------------------------------------------------------------------------
  // Initialisation and the message handlers

  /** `initializeTracking` replaces any prior state with a tracking, unpaused
      one whose time and extension default to 0. */
  lemma InitializeTrackingReplacesState(t: Tracker, h: string, settings: SiteRecord)
    ensures var r := InitializeTracking(t, h, settings);
            && h in r.trackingStates
            && r.trackingStates == t.trackingStates[h := r.trackingStates[h]]
            && r.trackingStates[h].isTracking && !r.trackingStates[h].isPaused
            && r.trackingStates[h].time == (if settings.time.Some? then settings.time.value else 0)
            && r.trackingStates[h].initialLimit == settings.initialLimit
            && r.trackingStates[h].totalExtendedTime == (if settings.totalExtendedTime.Some? then settings.totalExtendedTime.value else 0)
            && r.trackingStates[h].reminder == settings.reminder
  {
  }

  /** `addSite` stores a record with time 0 and no extension and starts an
      unpaused state with the requested limit. */
  lemma AddSiteStartsFresh(t: Tracker, h: string, limit: Option<int>, schedule: Option<Schedule>,
                           reminder: Option<Reminder>, category: Option<string>)
    ensures var r := AddSite(t, h, limit, schedule, reminder, category);
            && h in r.store && h in r.trackingStates
            && r.store[h].time == Some(0) && r.store[h].totalExtendedTime == Some(0)
            && r.store[h].initialLimit == limit && r.store[h].limit == None
            && r.trackingStates[h] == TrackState(true, false, 0, limit, 0, reminder)
  {
  }

  /** `rerunTracking` resets time to 0, tracking on, unpaused, and keeps the
      extension only when `preserveSettings` is set; every other stored field
      is kept. */
  lemma RerunTrackingResets(t: Tracker, h: string, preserveSettings: bool)
    requires h in t.store || !preserveSettings
    ensures var base := if h in t.store then t.store[h] else NoFields;
            var r := RerunTracking(t, h, preserveSettings);
            && h in r.trackingStates && h in r.store
            && r.trackingStates[h].time == 0
            && r.trackingStates[h].isTracking && !r.trackingStates[h].isPaused
            && r.trackingStates[h].totalExtendedTime == (if preserveSettings then base.totalExtendedTime.GetOr(0) else 0)
            && r.store[h] == base.(time := Some(0), isTracking := Some(true), isPaused := Some(false),
                                   totalExtendedTime := if preserveSettings then base.totalExtendedTime else Some(0))
            && r.outbox == t.outbox + [SiteSettingsUpdated(h, r.store[h])]
  {
  }

  /** Rerunning a site with no record while keeping settings fails before any
      change. */
  lemma RerunMissingRecordKeepingSettings(t: Tracker, h: string)
    requires h !in t.store
    ensures RerunTracking(t, h, true) == t
  {
  }

  /** `updateSiteSettings` merges the settings into the stored record and
      leaves the accumulated time of the tracking state alone. */
  lemma UpdateSiteSettingsKeepsTime(t: Tracker, h: string, settings: SiteRecord)
    ensures var current := if h in t.store then t.store[h] else NoFields;
            var r := UpdateSiteSettings(t, h, settings);
            && r.store == t.store[h := Merge(current, settings)]
            && r.trackingStates.Keys == t.trackingStates.Keys
            && (h in t.trackingStates ==>
                  && r.trackingStates[h].time == t.trackingStates[h].time
                  && r.trackingStates[h].isPaused == t.trackingStates[h].isPaused
                  && r.trackingStates[h].initialLimit == Merge(current, settings).initialLimit)
            && r.outbox == t.outbox + [SiteSettingsUpdated(h, Merge(current, settings))]
  {
  }

  /** `startTrackingForHostname` does not clear a running interval, so
      resuming a site while a session's interval runs leaves two running: the
      old one is no longer named by `intervalId` and no later call clears it.
      Both tick the same shared clock, so no time is counted twice (see
      `SessionTimeIsWallClock`). */
  lemma ResumeLeavesOldIntervalRunning(t: Tracker, h: string, now: int)
    requires Inv(t)
    requires h in t.trackingStates && t.trackingStates[h].isPaused
    requires t.intervalId.Some? && t.intervalId.value in t.liveIntervals
    ensures var r := ResumeTracking(t, h, now);
            && r.liveIntervals == t.liveIntervals + {t.nextIntervalId}
            && t.intervalId.value in r.liveIntervals
            && r.intervalId == Some(t.nextIntervalId) != t.intervalId
  {
  }

  // ---------------------------------------------------------------------------
  // Tab changes

  /** After a tab change the new tab is active from `now` and no interval of
      the old session runs. An ignored site gets nothing more; a site with no
      record only gets a `promptTrack`; a session starts (a new interval) only
      for a tracking, unpaused state. */
  lemma HandleTabChangeRoutes(t: Tracker, tabId: TabId, hostname: string, previousHostname: Option<string>, now: int)
    requires Inv(t)
    ensures var c := CloseSession(t, tabId, previousHostname, now);
            var r := HandleTabChange(t, tabId, hostname, previousHostname, now);
            && r.activeTabId == Some(tabId) && r.startTime == now
            && (c.intervalId.Some? ==> c.intervalId.value !in c.liveIntervals)
            && (hostname in t.ignoredSites ==> r == c)
            && (hostname !in t.ignoredSites && hostname !in c.store ==>
                  r == c.(outbox := c.outbox + [PromptTrack(tabId, hostname)]))
            && (r.intervalId != c.intervalId <==>
                  hostname !in t.ignoredSites && hostname in c.store
                  && hostname in c.trackingStates && Accrues(c.trackingStates[hostname]))
  {
    CloseSessionKeepsInv(t, tabId, previousHostname, now);
  }

  // ---------------------------------------------------------------------------
  // Alarms firing

  /** An alarm named `dismiss_<h>` only re-delivers the notice for `h`, and
      only when `h` is in front; it pauses nothing. */
  lemma DismissAlarmRedelivers(t: Tracker, h: string, active: Option<ActiveTab>)
    ensures var r := HandleAlarm(t, DismissPrefix + h, active);
            && r == t.(outbox := r.outbox)
            && r.outbox == t.outbox + (if active.Some? && active.value.hostname == h
                                       then [ShowTimeLimitReached(Some(active.value.id), h, None)] else [])
  {
    assert (DismissPrefix + h)[|DismissPrefix|..] == h;
  }

  /** Any other alarm `h` pauses `h` and notifies only when the active tab's
      hostname is `h`; otherwise nothing changes. */
  lemma LimitAlarmPausesOnlyInFront(t: Tracker, h: string, active: Option<ActiveTab>)
    requires !(DismissPrefix <= h)
    ensures var r := HandleAlarm(t, h, active);
            && (active.Some? && active.value.hostname == h ==>
                  r == PauseTracking(t, h).(outbox := PauseTracking(t, h).outbox + [ShowTimeLimitReached(Some(active.value.id), h, None)]))
            && (!(active.Some? && active.value.hostname == h) ==> r == t)
  {
  }

  // ---------------------------------------------------------------------------
  // The reminder

  /** A tick sends the reminder exactly when the site accrues, has a reminder
      and a limit, and the time before the tick lies below the reminder's
      share of the limit while the time after it does not. */
  lemma TickSendsReminderOnCrossing(t: Tracker, h: string, now: int)
    ensures var accrues := h in t.trackingStates && Accrues(t.trackingStates[h]);
            ReminderNotices(SaveTimeForActiveTab(t, Some(h), now).outbox) == ReminderNotices(t.outbox) + 1
            <==>
            && accrues
            && t.trackingStates[h].reminder.Some? && t.trackingStates[h].initialLimit.Some?
            && var s := t.trackingStates[h];
               var limitMs := EffectiveLimitMs(s.initialLimit.value, s.totalExtendedTime);
               s.time * 100 < limitMs * s.reminder.value.percentage <= (s.time + (now - t.startTime)) * 100
  {
    TickStep(t, h, now);
    TickMessageCounts(t, h, now);
    ReminderNoticesAppend(t.outbox, TickMessages(t, h, now));
  }

  /** As written, `updateStorage` never sends a reminder: below the threshold
      the check is false, and at or above it reading `timeSpent` throws. It
      does everything else the corrected callback does. For a 10-minute limit
      with a reminder at 50%, the tick from 299 to 300 seconds crosses the
      threshold: the corrected callback sends the reminder and the written one
      throws instead. */
  lemma ReminderLostAsWritten(t: Tracker, h: string, s: TrackState, previous: int)
    ensures var w := UpdateStorageAsWritten(t, h, s);
            && ReminderNotices(w.outbox) == ReminderNotices(t.outbox)
            && (ReminderDue(s, previous) ==> ReminderCheckAsWritten(s) == ReferenceError)
            && UpdateStorage(t, h, s, previous)
               == if ReminderDue(s, previous) then w.(outbox := w.outbox + [ShowCustomReminder(w.activeTabId, s.reminder.value.text)]) else w
    ensures var s1 := TrackState(true, false, 300000, Some(10), 0, Some(Reminder("Stretch", 50)));
            && ReminderDue(s1, 299000)
            && ReminderCheckAsWritten(s1) == ReferenceError
            && ReminderNotices(UpdateStorage(t, h, s1, 299000).outbox) == ReminderNotices(t.outbox) + 1
  {
    var base := if h in t.store then t.store[h] else NoFields;
    var t1 := t.(store := t.store[h := base.(time := Some(s.time))],
                 outbox := t.outbox + [UpdateTime(h, s.time)]);
    ReminderNoticesAppend(t.outbox, [UpdateTime(h, s.time)]);
    if AtLimit(s) {
      var p := PauseTracking(t1, h);
      ReminderNoticesAppend(p.outbox, [ShowTimeLimitReached(p.activeTabId, h,
                                        Some(LimitDetails(s.time, s.initialLimit, s.totalExtendedTime)))]);
    }
    var s1 := TrackState(true, false, 300000, Some(10), 0, Some(Reminder("Stretch", 50)));
    var w1 := UpdateStorageAsWritten(t, h, s1);
    var t1' := t.(store := t.store[h := base.(time := Some(s1.time))],
                  outbox := t.outbox + [UpdateTime(h, s1.time)]);
    ReminderNoticesAppend(t.outbox, [UpdateTime(h, s1.time)]);
    assert !AtLimit(s1);
    assert w1 == t1';
    ReminderNoticesAppend(w1.outbox, [ShowCustomReminder(w1.activeTabId, "Stretch")]);
  }

  // ---------------------------------------------------------------------------
  // Runs of interval ticks

  /** The interval ticking at the clock readings `nows`, each tick resolving
      the active tab to `h`. */
  function Ticks(t: Tracker, h: string, nows: seq<int>): Tracker
    decreases |nows|
  {
    if nows == [] then t else Ticks(SaveTimeForActiveTab(t, Some(h), nows[0]), h, nows[1..])
  }

  /** The clock never goes back, starting from `start`. */
  predicate ClockMonotone(start: int, nows: seq<int>)
    decreases |nows|
  {
    nows == [] || (start <= nows[0] && ClockMonotone(nows[0], nows[1..]))
  }

  /** The messages one tick for `h` sends: none unless the site accrues; then
      the time update, the limit notice when the limit is reached, and the
      reminder when the step crosses its threshold. */
  function TickMessages(t: Tracker, h: string, now: int): seq<Message> {
    if h in t.trackingStates && Accrues(t.trackingStates[h]) then
      var s := t.trackingStates[h];
      var s1 := s.(time := s.time + (now - t.startTime));
      [UpdateTime(h, s1.time)]
        + (if AtLimit(s1) then [ShowTimeLimitReached(t.activeTabId, h, Some(LimitDetails(s1.time, s.initialLimit, s.totalExtendedTime)))] else [])
        + (if ReminderDue(s1, s.time) then [ShowCustomReminder(t.activeTabId, s.reminder.value.text)] else [])
    else []
  }

  /** One tick, in the terms the run lemmas need. */
  lemma TickStep(t: Tracker, h: string, now: int)
    ensures var r := SaveTimeForActiveTab(t, Some(h), now);
            && r.outbox == t.outbox + TickMessages(t, h, now)
            && r.startTime == now
            && r.trackingStates.Keys == t.trackingStates.Keys
            && (h in t.trackingStates ==>
                  r.trackingStates[h] == if Accrues(t.trackingStates[h])
                                         then Ticked(t.trackingStates[h], now - t.startTime)
                                         else t.trackingStates[h])
  {
    if h in t.trackingStates && Accrues(t.trackingStates[h]) {
      TickOnTrackedSite(t, h, now);
    } else {
      TickWithoutAccrual(t, Some(h), now);
    }
  }

  /** How many limit notices and reminders one tick sends. */
  lemma TickMessageCounts(t: Tracker, h: string, now: int)
    ensures var accrues := h in t.trackingStates && Accrues(t.trackingStates[h]);
            var s := if accrues then t.trackingStates[h] else TrackState(false, false, 0, None, 0, None);
            var s1 := s.(time := s.time + (now - t.startTime));
            && LimitNotices(TickMessages(t, h, now), h) == (if accrues && AtLimit(s1) then 1 else 0)
            && ReminderNotices(TickMessages(t, h, now)) == (if accrues && ReminderDue(s1, s.time) then 1 else 0)
  {
    if h in t.trackingStates && Accrues(t.trackingStates[h]) {
      var s := t.trackingStates[h];
      var s1 := s.(time := s.time + (now - t.startTime));
      var a := [UpdateTime(h, s1.time)];
      var b := if AtLimit(s1) then [ShowTimeLimitReached(t.activeTabId, h, Some(LimitDetails(s1.time, s.initialLimit, s.totalExtendedTime)))] else [];
      var c := if ReminderDue(s1, s.time) then [ShowCustomReminder(t.activeTabId, s.reminder.value.text)] else [];
      LimitNoticesAppend(a + b, c, h);
      LimitNoticesAppend(a, b, h);
      ReminderNoticesAppend(a + b, c);
      ReminderNoticesAppend(a, b);
    }
  }

  /** The messages a run sends after those already in `t.outbox`. */
  function Sent(t: Tracker, r: Tracker): seq<Message>
    requires t.outbox <= r.outbox
  {
    r.outbox[|t.outbox|..]
  }

  /** Ticks only ever append to the message log and keep the set of sites. */
  lemma {:induction false} TicksOnlyAppend(t: Tracker, h: string, nows: seq<int>)
    ensures t.outbox <= Ticks(t, h, nows).outbox
    ensures Ticks(t, h, nows).trackingStates.Keys == t.trackingStates.Keys
    decreases |nows|
  {
    if nows != [] {
      TickStep(t, h, nows[0]);
      TicksOnlyAppend(SaveTimeForActiveTab(t, Some(h), nows[0]), h, nows[1..]);
    }
  }

  /** A run's messages are the first tick's followed by the rest's. */
  lemma SentSplits(t: Tracker, h: string, nows: seq<int>)
    requires nows != []
    ensures var t1 := SaveTimeForActiveTab(t, Some(h), nows[0]);
            var r := Ticks(t, h, nows);
            && t.outbox <= r.outbox && t1.outbox <= r.outbox
            && Sent(t, r) == TickMessages(t, h, nows[0]) + Sent(t1, r)
  {
    var t1 := SaveTimeForActiveTab(t, Some(h), nows[0]);
    TickStep(t, h, nows[0]);
    TicksOnlyAppend(t1, h, nows[1..]);
    var r := Ticks(t1, h, nows[1..]);
    assert Ticks(t, h, nows) == r;
    SuffixSplits(t.outbox, TickMessages(t, h, nows[0]), r.outbox);
  }

  /** Once a site is paused, ticks only move the clock: its time stops growing
      and nothing is sent. */
  lemma {:induction false} PausedTicksAreFrozen(t: Tracker, h: string, nows: seq<int>)
    requires h in t.trackingStates && t.trackingStates[h].isPaused
    ensures Ticks(t, h, nows) == if nows == [] then t else t.(startTime := nows[|nows| - 1])
    decreases |nows|
  {
    if nows != [] {
      TickWithoutAccrual(t, Some(h), nows[0]);
      PausedTicksAreFrozen(t.(startTime := nows[0]), h, nows[1..]);
    }
  }

  /** Over any run of ticks the limit notice for `h` is sent at most once:
      the tick that reaches the limit pauses the site, and paused sites no
      longer accrue. */
  lemma {:induction false} LimitNoticeAtMostOnce(t: Tracker, h: string, nows: seq<int>)
    ensures var r := Ticks(t, h, nows);
            t.outbox <= r.outbox && LimitNotices(Sent(t, r), h) <= 1
    decreases |nows|
  {
    TicksOnlyAppend(t, h, nows);
    if nows != [] {
      var t1 := SaveTimeForActiveTab(t, Some(h), nows[0]);
      var r := Ticks(t, h, nows);
      SentSplits(t, h, nows);
      TickStep(t, h, nows[0]);
      TickMessageCounts(t, h, nows[0]);
      LimitNoticesAppend(TickMessages(t, h, nows[0]), Sent(t1, r), h);
      if LimitNotices(TickMessages(t, h, nows[0]), h) == 1 {
        PausedTicksAreFrozen(t1, h, nows[1..]);
        assert Sent(t1, r) == [];
      } else {
        LimitNoticeAtMostOnce(t1, h, nows[1..]);
      }
    }
  }

  /** Within one session the time a site accrues is the wall-clock time since
      the session's clock was last restarted, up to the last tick, as long as
      the limit has not paused it: nothing is counted twice or lost. */
  lemma {:induction false} SessionTimeIsWallClock(t: Tracker, h: string, nows: seq<int>)
    requires h in t.trackingStates && Accrues(t.trackingStates[h]) && nows != []
    ensures var r := Ticks(t, h, nows);
            && h in r.trackingStates
            && (!r.trackingStates[h].isPaused ==>
                  r.trackingStates[h].time == t.trackingStates[h].time + (nows[|nows| - 1] - t.startTime))
    decreases |nows|
  {
    var t1 := SaveTimeForActiveTab(t, Some(h), nows[0]);
    TickStep(t, h, nows[0]);
    TicksOnlyAppend(t1, h, nows[1..]);
    if |nows| > 1 {
      if t1.trackingStates[h].isPaused {
        PausedTicksAreFrozen(t1, h, nows[1..]);
      } else {
        SessionTimeIsWallClock(t1, h, nows[1..]);
        assert nows[1..][|nows[1..]| - 1] == nows[|nows| - 1];
      }
    }
  }

  /** When the session's time reaches the limit by the last tick, the limit
      notice is sent exactly once. */
  lemma {:induction false} LimitNoticeOnceReached(t: Tracker, h: string, nows: seq<int>)
    requires h in t.trackingStates && Accrues(t.trackingStates[h]) && nows != []
    requires LimitMs(t.trackingStates[h]).Some?
    requires t.trackingStates[h].time + (nows[|nows| - 1] - t.startTime) >= LimitMs(t.trackingStates[h]).value
    ensures var r := Ticks(t, h, nows);
            t.outbox <= r.outbox && LimitNotices(Sent(t, r), h) == 1
    decreases |nows|
  {
    var t1 := SaveTimeForActiveTab(t, Some(h), nows[0]);
    var r := Ticks(t, h, nows);
    SentSplits(t, h, nows);
    TickStep(t, h, nows[0]);
    TickMessageCounts(t, h, nows[0]);
    LimitNoticesAppend(TickMessages(t, h, nows[0]), Sent(t1, r), h);
    if LimitNotices(TickMessages(t, h, nows[0]), h) == 1 {
      PausedTicksAreFrozen(t1, h, nows[1..]);
      assert Sent(t1, r) == [];
    } else {
      assert |nows| > 1;
      assert nows[1..][|nows[1..]| - 1] == nows[|nows| - 1];
      LimitNoticeOnceReached(t1, h, nows[1..]);
    }
  }

  /** The site's reminder can no longer be crossed by a forward step: it has
      none, its limit is absent, or its time is already at the threshold. */
  predicate ReminderSpent(s: TrackState) {
    s.reminder.None? || LimitMs(s).None? || s.time * 100 >= LimitMs(s).value * s.reminder.value.percentage
  }

  /** While the clock does not go back, a site whose reminder is spent, or
      that is paused, gets no reminder from any run of ticks. */
  lemma {:induction false} NoReminderOnceSpent(t: Tracker, h: string, nows: seq<int>)
    requires h in t.trackingStates && ClockMonotone(t.startTime, nows)
    requires ReminderSpent(t.trackingStates[h]) || t.trackingStates[h].isPaused
    ensures var r := Ticks(t, h, nows);
            t.outbox <= r.outbox && ReminderNotices(Sent(t, r)) == 0
    decreases |nows|
  {
    TicksOnlyAppend(t, h, nows);
    if nows != [] {
      var t1 := SaveTimeForActiveTab(t, Some(h), nows[0]);
      var r := Ticks(t, h, nows);
      SentSplits(t, h, nows);
      TickStep(t, h, nows[0]);
      TickMessageCounts(t, h, nows[0]);
      ReminderNoticesAppend(TickMessages(t, h, nows[0]), Sent(t1, r));
      NoReminderOnceSpent(t1, h, nows[1..]);
    }
  }

  /** While the clock does not go back, a run of ticks sends the reminder at
      most once: after the step that crosses the threshold, time stays at or
      above it. */
  lemma {:induction false} ReminderAtMostOnce(t: Tracker, h: string, nows: seq<int>)
    requires ClockMonotone(t.startTime, nows)
    ensures var r := Ticks(t, h, nows);
            t.outbox <= r.outbox && ReminderNotices(Sent(t, r)) <= 1
    decreases |nows|
  {
    TicksOnlyAppend(t, h, nows);
    if nows != [] {
      var t1 := SaveTimeForActiveTab(t, Some(h), nows[0]);
      var r := Ticks(t, h, nows);
      SentSplits(t, h, nows);
      TickStep(t, h, nows[0]);
      TickMessageCounts(t, h, nows[0]);
      ReminderNoticesAppend(TickMessages(t, h, nows[0]), Sent(t1, r));
      if ReminderNotices(TickMessages(t, h, nows[0])) == 1 {
        NoReminderOnceSpent(t1, h, nows[1..]);
      } else {
        ReminderAtMostOnce(t1, h, nows[1..]);
      }
    }
  }
}
