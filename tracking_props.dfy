/** What the stand-alone tracker guarantees, stated over `TrackingSpec`: the
    invariant every method keeps, how alarms are armed, what a tick adds, that
    pausing freezes a site and ends its session, how resuming and returning to
    a tab are counted, and what a run of ticks adds up to. */
module TrackingProperties {
  import opened Limits
  import opened Records
  import opened TrackingSpec

  // ---------------------------------------------------------------------------
  // The invariant

  lemma InitialKeepsInv(store: map<string, SiteRecord>, armed: map<string, int>)
    requires forall h :: h in armed ==> armed[h] > 0
    ensures Inv(Initial(store, armed))
  {
  }

  lemma UpdateAlarmKeepsInv(t: Tracker, h: string)
    requires Inv(t)
    ensures Inv(UpdateAlarm(t, h))
  {
  }

  lemma InitializeTrackingKeepsInv(t: Tracker, h: string, initialLimit: Option<int>,
                                   totalExtendedTime: Option<int>, now: int)
    requires Inv(t)
    ensures Inv(InitializeTracking(t, h, initialLimit, totalExtendedTime, now))
  {
    var s := SiteState(true, false, 0, initialLimit, totalExtendedTime.GetOr(0), now);
    var t1 := t.(trackingStates := t.trackingStates[h := s]);
    assert Inv(t1);
    UpdateAlarmKeepsInv(t1, h);
  }

  lemma UpdateTimeLimitKeepsInv(t: Tracker, h: string, newLimit: Option<int>, newExtendedTime: int)
    requires Inv(t)
    ensures Inv(UpdateTimeLimit(t, h, newLimit, newExtendedTime))
  {
    if h in t.trackingStates {
      var s := t.trackingStates[h].(initialLimit := newLimit, totalExtendedTime := newExtendedTime);
      var t1 := t.(trackingStates := t.trackingStates[h := s]);
      assert Inv(t1);
      UpdateAlarmKeepsInv(t1, h);
    }
  }

  lemma StopTrackingKeepsInv(t: Tracker)
    requires Inv(t)
    ensures Inv(StopTracking(t))
  {
  }

  lemma StartTrackingKeepsInv(t: Tracker, tabId: TabId, h: string, now: int)
    requires Inv(t)
    ensures Inv(StartTracking(t, tabId, h, now))
  {
    var t1 := StopTracking(t).(activeTabId := Some(tabId), startTime := Some(now));
    if h in t1.trackingStates && Accrues(t1.trackingStates[h]) {
      var id := t1.nextIntervalId;
      var t2 := t1.(intervalId := Some(id), intervals := t1.intervals[id := h], nextIntervalId := id + 1);
      assert t1.intervals == map[];
      assert t2.intervals.Keys == {id};
      assert SessionInv(t2);
      assert StatesInv(t2);
      UpdateAlarmKeepsInv(t2, h);
    }
  }

  lemma PauseTrackingKeepsInv(t: Tracker, h: string)
    requires Inv(t)
    ensures Inv(PauseTracking(t, h))
  {
  }

  lemma UpdateTimeKeepsInv(t: Tracker, h: string, now: int)
    requires Inv(t)
    ensures Inv(TrackingSpec.UpdateTime(t, h, now))
  {
    if h in t.trackingStates && Accrues(t.trackingStates[h]) {
      var s1 := Advanced(t.trackingStates[h], now);
      var t1 := StoreTime(t, h, s1);
      AccrueKeepsInv(t, h, s1, t1.store, t1.outbox);
      if AtLimit(s1) {
        var p := PauseTracking(t1, h);
        PauseTrackingKeepsInv(t1, h);
        OutboxKeepsInv(p, NotifyLimit(p, h, s1).outbox);
      }
    }
  }

  /** The invariant does not depend on the messages sent. */
  lemma OutboxKeepsInv(t: Tracker, outbox: seq<Message>)
    requires Inv(t)
    ensures Inv(t.(outbox := outbox))
  {
  }

  /** Writing back an accruing state of an accruing site, with any storage
      and messages, keeps the invariant. */
  lemma AccrueKeepsInv(t: Tracker, h: string, s1: SiteState, store: map<string, SiteRecord>, outbox: seq<Message>)
    requires Inv(t) && h in t.trackingStates && Accrues(t.trackingStates[h]) && Accrues(s1)
    ensures Inv(t.(trackingStates := t.trackingStates[h := s1], store := store, outbox := outbox))
  {
    var t1 := t.(trackingStates := t.trackingStates[h := s1], store := store, outbox := outbox);
    assert SessionInv(t1) by {
      if t.intervalId.Some? {
        var g := t.intervals[t.intervalId.value];
        assert g in t1.trackingStates && Accrues(t1.trackingStates[g]);
      }
    }
    assert StatesInv(t1);
  }

  lemma ResumeTrackingKeepsInv(t: Tracker, h: string, now: int)
    requires Inv(t)
    ensures Inv(ResumeTracking(t, h, now))
  {
    if h in t.trackingStates {
      var t1 := t.(trackingStates := t.trackingStates[h := t.trackingStates[h].(isPaused := false, lastUpdateTime := now)]);
      assert Inv(t1);
      UpdateAlarmKeepsInv(t1, h);
    }
  }

  // ---------------------------------------------------------------------------
  // Limits and alarms

  /** The site's alarm, if `updateAlarm` would arm one: tracking, unpaused,
      with a limit and time strictly below it; the delay is the time left. */
  function ArmedDelay(s: SiteState): Option<int> {
    if Accrues(s) && LimitMs(s).Some? && s.time < LimitMs(s).value then Some(LimitMs(s).value - s.time) else None
  }

  /** `updateAlarm` touches nothing but the site's own alarm, arms it only for
      a tracking, unpaused site strictly under its limit, with the time left
      as its delay, so that delay and time add up to the limit; one alarm per
      hostname remains. Otherwise the alarms are left as they were. */
  lemma UpdateAlarmArmsOnlyUnderLimit(t: Tracker, h: string)
    ensures var r := UpdateAlarm(t, h);
            && r.(alarms := t.alarms) == t
            && r.alarms.Keys <= t.alarms.Keys + {h}
            && (forall g :: g in t.alarms && g != h ==> g in r.alarms && r.alarms[g] == t.alarms[g])
            && (h in t.trackingStates && ArmedDelay(t.trackingStates[h]).Some? ==>
                  && h in r.alarms
                  && r.alarms[h] == ArmedDelay(t.trackingStates[h]).value
                  && t.trackingStates[h].time + r.alarms[h] == LimitMs(t.trackingStates[h]).value)
            && (h !in t.trackingStates || ArmedDelay(t.trackingStates[h]).None? ==> r.alarms == t.alarms)
  {
  }

  /** `initializeTracking` replaces any earlier state of the site by one that
      is tracking, unpaused, at time 0, with the given limit, the extension
      defaulting to 0 and the clock at `now`; other sites and the session are
      untouched, and the alarm is armed exactly when the limit is positive. */
  lemma InitializeTrackingReplacesState(t: Tracker, h: string, initialLimit: Option<int>,
                                        totalExtendedTime: Option<int>, now: int)
    ensures var r := InitializeTracking(t, h, initialLimit, totalExtendedTime, now);
            var s := SiteState(true, false, 0, initialLimit, totalExtendedTime.GetOr(0), now);
            && r.trackingStates == t.trackingStates[h := s]
            && r.trackingStates[h].initialLimit == initialLimit
            && (totalExtendedTime.None? ==> r.trackingStates[h].totalExtendedTime == 0)
            && r.activeTabId == t.activeTabId && r.intervalId == t.intervalId && r.intervals == t.intervals
            && (LimitMs(s).Some? && LimitMs(s).value > 0 ==> h in r.alarms && r.alarms[h] == LimitMs(s).value)
            && (!(LimitMs(s).Some? && LimitMs(s).value > 0) ==> r.alarms == t.alarms)
  {
    var s := SiteState(true, false, 0, initialLimit, totalExtendedTime.GetOr(0), now);
    UpdateAlarmArmsOnlyUnderLimit(t.(trackingStates := t.trackingStates[h := s]), h);
  }

  /** `updateTimeLimit` on an unknown site changes nothing. On a known one it
      sets the two limit fields and nothing else of the state: time, the
      tracking and pause flags and the site's clock are kept; the alarm is
      re-armed only for a tracking, unpaused site under its new limit. */
  lemma UpdateTimeLimitKeepsProgress(t: Tracker, h: string, newLimit: Option<int>, newExtendedTime: int)
    ensures var r := UpdateTimeLimit(t, h, newLimit, newExtendedTime);
            && (h !in t.trackingStates ==> r == t)
            && (h in t.trackingStates ==>
                  var s := t.trackingStates[h];
                  var s1 := s.(initialLimit := newLimit, totalExtendedTime := newExtendedTime);
                  && h in r.trackingStates
                  && r.trackingStates[h].initialLimit == newLimit
                  && r.trackingStates[h].totalExtendedTime == newExtendedTime
                  && r.trackingStates[h].time == s.time
                  && r.trackingStates[h].isTracking == s.isTracking
                  && r.trackingStates[h].isPaused == s.isPaused
                  && r.trackingStates[h].lastUpdateTime == s.lastUpdateTime
                  && (forall g :: g in t.trackingStates && g != h ==> g in r.trackingStates && r.trackingStates[g] == t.trackingStates[g])
                  && r.alarms == (if ArmedDelay(s1).Some? then t.alarms[h := ArmedDelay(s1).value] else t.alarms))
  {
    if h in t.trackingStates {
      var s1 := t.trackingStates[h].(initialLimit := newLimit, totalExtendedTime := newExtendedTime);
      UpdateAlarmArmsOnlyUnderLimit(t.(trackingStates := t.trackingStates[h := s1]), h);
    }
  }

  // ---------------------------------------------------------------------------
  // Sessions

  /** Stopping twice is stopping once. */
  lemma StopTrackingIdempotent(t: Tracker)
    ensures StopTracking(StopTracking(t)) == StopTracking(t)
  {
  }

  /** After `stopTracking` no interval runs and no session is open; site
      states, storage, alarms and messages are untouched. */
  lemma StopTrackingEndsSession(t: Tracker)
    requires Inv(t)
    ensures var r := StopTracking(t);
            && r.intervals == map[] && r.intervalId.None?
            && r.activeTabId.None? && r.startTime.None?
            && r.trackingStates == t.trackingStates && r.store == t.store
            && r.alarms == t.alarms && r.outbox == t.outbox
  {
  }

  /** `startTracking` ends the previous session, so afterwards at most one
      interval runs: a new one, ticking `h`, exactly when the site is tracking
      and unpaused. The session belongs to `tabId` from `now`, and no site
      state changes. */
  lemma StartTrackingKeepsOneInterval(t: Tracker, tabId: TabId, h: string, now: int)
    requires Inv(t)
    ensures var r := StartTracking(t, tabId, h, now);
            var starts := h in t.trackingStates && Accrues(t.trackingStates[h]);
            && r.intervals == (if starts then map[t.nextIntervalId := h] else map[])
            && r.intervalId == (if starts then Some(t.nextIntervalId) else None)
            && (t.intervalId.Some? ==> t.intervalId.value !in r.intervals)
            && r.activeTabId == Some(tabId) && r.startTime == Some(now)
            && r.trackingStates == t.trackingStates
  {
  }

  // ---------------------------------------------------------------------------
  // One tick

  /** A tick for a site that is missing, not tracking or paused changes
      nothing at all. */
  lemma UpdateTimeSkipsIdleSite(t: Tracker, h: string, now: int)
    requires h !in t.trackingStates || !Accrues(t.trackingStates[h])
    ensures TrackingSpec.UpdateTime(t, h, now) == t
  {
  }

  /** A tick for a tracking, unpaused site adds exactly the time since its
      last update and moves that mark to `now`, so its time never decreases
      while the clock does not go back; it writes the new time to storage and
      pauses the site exactly when the limit is reached. Other sites are
      untouched. */
  lemma UpdateTimeAccrues(t: Tracker, h: string, now: int)
    requires h in t.trackingStates && Accrues(t.trackingStates[h])
    ensures var s := t.trackingStates[h];
            var r := TrackingSpec.UpdateTime(t, h, now);
            && h in r.trackingStates
            && r.trackingStates[h].time == s.time + (now - s.lastUpdateTime)
            && r.trackingStates[h].lastUpdateTime == now
            && (s.lastUpdateTime <= now ==> r.trackingStates[h].time >= s.time)
            && r.trackingStates[h].isPaused == AtLimit(Advanced(s, now))
            && h in r.store && r.store[h].time == Some(r.trackingStates[h].time)
            && (forall g :: g in t.trackingStates && g != h ==> g in r.trackingStates && r.trackingStates[g] == t.trackingStates[g])
  {
  }

  /** Reaching the limit pauses the site, clears its alarm and ends the
      session, so no interval runs any longer; the notice that follows is
      addressed to the active tab the pause has just set to null, so it reaches
      no page. Short of the limit the session, intervals and alarms are kept. */
  lemma UpdateTimeAtLimitPauses(t: Tracker, h: string, now: int)
    requires Inv(t)
    requires h in t.trackingStates && Accrues(t.trackingStates[h])
    ensures var s1 := Advanced(t.trackingStates[h], now);
            var r := TrackingSpec.UpdateTime(t, h, now);
            && (AtLimit(s1) ==>
                  && r.trackingStates[h].isPaused
                  && h !in r.alarms
                  && r.intervals == map[] && r.intervalId.None? && r.activeTabId.None?
                  && r.outbox == t.outbox + [Message.UpdateTime(h, s1.time),
                                             ShowTimeLimitReached(None, h, Some(LimitDetails(s1.time, s1.initialLimit, s1.totalExtendedTime)))])
            && (!AtLimit(s1) ==>
                  && r.alarms == t.alarms && r.intervals == t.intervals
                  && r.intervalId == t.intervalId && r.activeTabId == t.activeTabId
                  && r.outbox == t.outbox + [Message.UpdateTime(h, s1.time)])
  {
  }

  /** After `resumeTracking`, the next tick counts only the time since the
      resume: the paused span is skipped. */
  lemma ResumeSkipsPausedSpan(t: Tracker, h: string, resumedAt: int, now: int)
    requires h in t.trackingStates && t.trackingStates[h].isTracking
    ensures var r := TrackingSpec.UpdateTime(ResumeTracking(t, h, resumedAt), h, now);
            h in r.trackingStates && r.trackingStates[h].time == t.trackingStates[h].time + (now - resumedAt)
  {
    var t1 := t.(trackingStates := t.trackingStates[h := t.trackingStates[h].(isPaused := false, lastUpdateTime := resumedAt)]);
    UpdateAlarmArmsOnlyUnderLimit(t1, h);
    UpdateTimeAccrues(UpdateAlarm(t1, h), h, resumedAt);
  }

  /** `startTracking` leaves the site's clock where the last tick put it, so
      the first tick after returning to a tab at `back` also counts the time
      spent away, whenever `back` was. */
  lemma TimeAwayCountedOnReturn(t: Tracker, tabId: TabId, h: string, back: int, now: int)
    requires Inv(t)
    requires h in t.trackingStates && Accrues(t.trackingStates[h])
    ensures var r := TrackingSpec.UpdateTime(StartTracking(t, tabId, h, back), h, now);
            var s := t.trackingStates[h];
            h in r.trackingStates && r.trackingStates[h].time == s.time + (now - s.lastUpdateTime)
  {
    StartTrackingKeepsOneInterval(t, tabId, h, back);
    var t1 := StartTracking(t, tabId, h, back);
    UpdateTimeAccrues(t1, h, now);
  }

  // ---------------------------------------------------------------------------
  // Runs of ticks

  /** The interval for `h` ticking at the clock readings `nows`. */
  function Ticks(t: Tracker, h: string, nows: seq<int>): Tracker
    decreases |nows|
  {
    if nows == [] then t else Ticks(TrackingSpec.UpdateTime(t, h, nows[0]), h, nows[1..])
  }

  /** The clock never goes back, starting from `start`. */
  predicate ClockMonotone(start: int, nows: seq<int>)
    decreases |nows|
  {
    nows == [] || (start <= nows[0] && ClockMonotone(nows[0], nows[1..]))
  }

  /** The messages one tick for `h` sends: none unless the site accrues; then
      the time update, and the limit notice, addressed to no tab, when the
      limit is reached. */
  function TickMessages(t: Tracker, h: string, now: int): seq<Message> {
    if h in t.trackingStates && Accrues(t.trackingStates[h]) then
      var s1 := Advanced(t.trackingStates[h], now);
      [Message.UpdateTime(h, s1.time)]
        + (if AtLimit(s1) then [ShowTimeLimitReached(None, h, Some(LimitDetails(s1.time, s1.initialLimit, s1.totalExtendedTime)))] else [])
    else []
  }

  /** One tick, in the terms the run lemmas need. */
  lemma TickStep(t: Tracker, h: string, now: int)
    ensures var r := TrackingSpec.UpdateTime(t, h, now);
            && r.outbox == t.outbox + TickMessages(t, h, now)
            && r.trackingStates.Keys == t.trackingStates.Keys
            && (h in t.trackingStates ==>
                  r.trackingStates[h] == if Accrues(t.trackingStates[h])
                                         then var s1 := Advanced(t.trackingStates[h], now); s1.(isPaused := AtLimit(s1))
                                         else t.trackingStates[h])
            && LimitNotices(TickMessages(t, h, now), h)
                 == (if h in t.trackingStates && Accrues(t.trackingStates[h]) && AtLimit(Advanced(t.trackingStates[h], now)) then 1 else 0)
  {
    if h in t.trackingStates && Accrues(t.trackingStates[h]) {
      var s1 := Advanced(t.trackingStates[h], now);
      var a := [Message.UpdateTime(h, s1.time)];
      var b := if AtLimit(s1) then [ShowTimeLimitReached(None, h, Some(LimitDetails(s1.time, s1.initialLimit, s1.totalExtendedTime)))] else [];
      LimitNoticesAppend(a, b, h);
    }
  }

  /** The messages a run sends after those already in `t.outbox`. */
  function Sent(t: Tracker, r: Tracker): seq<Message>
    requires t.outbox <= r.outbox
  {
    r.outbox[|t.outbox|..]
  }

  /** Ticks only ever append to the message log and keep the set of sites. */
  lemma {:induction false} TicksOnlyAppend(t: Tracker, h: string, nows: seq<int>)
    ensures t.outbox <= Ticks(t, h, nows).outbox
    ensures Ticks(t, h, nows).trackingStates.Keys == t.trackingStates.Keys
    decreases |nows|
  {
    if nows != [] {
      TickStep(t, h, nows[0]);
      TicksOnlyAppend(TrackingSpec.UpdateTime(t, h, nows[0]), h, nows[1..]);
    }
  }

  /** A run's messages are the first tick's followed by the rest's. */
  lemma SentSplits(t: Tracker, h: string, nows: seq<int>)
    requires nows != []
    ensures var t1 := TrackingSpec.UpdateTime(t, h, nows[0]);
            var r := Ticks(t, h, nows);
            && t.outbox <= r.outbox && t1.outbox <= r.outbox
            && Sent(t, r) == TickMessages(t, h, nows[0]) + Sent(t1, r)
  {
    var t1 := TrackingSpec.UpdateTime(t, h, nows[0]);
    TickStep(t, h, nows[0]);
    TicksOnlyAppend(t1, h, nows[1..]);
    var r := Ticks(t1, h, nows[1..]);
    assert Ticks(t, h, nows) == r;
    SuffixSplits(t.outbox, TickMessages(t, h, nows[0]), r.outbox);
  }

  /** Once a site is paused, or stops tracking, its ticks change nothing: its
      time is frozen and nothing is sent. */
  lemma {:induction false} IdleTicksAreFrozen(t: Tracker, h: string, nows: seq<int>)
    requires h in t.trackingStates && !Accrues(t.trackingStates[h])
    ensures Ticks(t, h, nows) == t
    decreases |nows|
  {
    if nows != [] {
      UpdateTimeSkipsIdleSite(t, h, nows[0]);
      IdleTicksAreFrozen(t, h, nows[1..]);
    }
  }

  /** Over any run of ticks the limit notice for `h` is sent at most once:
      the tick that reaches the limit pauses the site, and paused sites no
      longer accrue. */
  lemma {:induction false} LimitNoticeAtMostOnce(t: Tracker, h: string, nows: seq<int>)
    ensures var r := Ticks(t, h, nows);
            t.outbox <= r.outbox && LimitNotices(Sent(t, r), h) <= 1
    decreases |nows|
  {
    TicksOnlyAppend(t, h, nows);
    if nows != [] {
      var t1 := TrackingSpec.UpdateTime(t, h, nows[0]);
      var r := Ticks(t, h, nows);
      SentSplits(t, h, nows);
      TickStep(t, h, nows[0]);
      LimitNoticesAppend(TickMessages(t, h, nows[0]), Sent(t1, r), h);
      if LimitNotices(TickMessages(t, h, nows[0]), h) == 1 {
        IdleTicksAreFrozen(t1, h, nows[1..]);
        assert Sent(t1, r) == [];
      } else {
        LimitNoticeAtMostOnce(t1, h, nows[1..]);
      }
    }
  }

  /** Over a run of ticks `time - lastUpdateTime` of the site does not move:
      every tick adds to the time exactly what it moves the site's clock. */
  lemma {:induction false} TicksKeepBalance(t: Tracker, h: string, nows: seq<int>)
    requires h in t.trackingStates
    ensures var r := Ticks(t, h, nows);
            && h in r.trackingStates
            && r.trackingStates[h].time - r.trackingStates[h].lastUpdateTime
               == t.trackingStates[h].time - t.trackingStates[h].lastUpdateTime
    decreases |nows|
  {
    if nows != [] {
      TickStep(t, h, nows[0]);
      TicksKeepBalance(TrackingSpec.UpdateTime(t, h, nows[0]), h, nows[1..]);
    }
  }

  /** While the limit has not paused the site, a run of ticks brings its
      clock to the last reading, so its time is its earlier time plus the
      wall-clock time from its last update to the last tick: nothing is
      counted twice or lost. */
  lemma {:induction false} TicksAddWallClock(t: Tracker, h: string, nows: seq<int>)
    requires h in t.trackingStates && Accrues(t.trackingStates[h]) && nows != []
    ensures var r := Ticks(t, h, nows);
            && h in r.trackingStates
            && (!r.trackingStates[h].isPaused ==>
                  && r.trackingStates[h].lastUpdateTime == nows[|nows| - 1]
                  && r.trackingStates[h].time
                     == t.trackingStates[h].time + (nows[|nows| - 1] - t.trackingStates[h].lastUpdateTime))
    decreases |nows|
  {
    var t1 := TrackingSpec.UpdateTime(t, h, nows[0]);
    TickStep(t, h, nows[0]);
    TicksKeepBalance(t, h, nows);
    if |nows| > 1 {
      if t1.trackingStates[h].isPaused {
        IdleTicksAreFrozen(t1, h, nows[1..]);
      } else {
        TicksAddWallClock(t1, h, nows[1..]);
        assert nows[1..][|nows[1..]| - 1] == nows[|nows| - 1];
      }
    }
  }

  /** While the clock does not go back from the site's last update, a run of
      ticks never decreases the site's time. */
  lemma {:induction false} TicksNeverLoseTime(t: Tracker, h: string, nows: seq<int>)
    requires h in t.trackingStates && ClockMonotone(t.trackingStates[h].lastUpdateTime, nows)
    ensures var r := Ticks(t, h, nows);
            h in r.trackingStates && r.trackingStates[h].time >= t.trackingStates[h].time
    decreases |nows|
  {
    if nows != [] {
      var t1 := TrackingSpec.UpdateTime(t, h, nows[0]);
      TickStep(t, h, nows[0]);
      if Accrues(t.trackingStates[h]) {
        TicksNeverLoseTime(t1, h, nows[1..]);
      } else {
        IdleTicksAreFrozen(t, h, nows);
      }
    }
  }

  // ---------------------------------------------------------------------------
  // The third test of test_runner.js

  /** The test runner's sequence: a fresh tracker, `initializeTracking(h, 30)`,
      then `updateTimeLimit(h, 45, 0)`. */
  function TestRunnerSetup(store: map<string, SiteRecord>, armed: map<string, int>, h: string, t0: int): Tracker {
    UpdateTimeLimit(InitializeTracking(Initial(store, armed), h, Some(30), None, t0), h, Some(45), 0)
  }

  /** As written, the runner never opens a session: neither call starts an
      interval, so nothing ever ticks `h` and its time stays 0 however long
      the test waits, while the test expects it to be positive after 2 s. */
  lemma TestRunnerStartsNoInterval(store: map<string, SiteRecord>, armed: map<string, int>, h: string, t0: int)
    ensures var r := TestRunnerSetup(store, armed, h, t0);
            && r.intervalId.None? && r.intervals == map[]
            && r.activeTabId.None? && r.startTime.None?
            && h in r.trackingStates && r.trackingStates[h].time == 0
            && r.trackingStates[h].isTracking
  {
    var t := Initial(store, armed);
    InitializeTrackingReplacesState(t, h, Some(30), None, t0);
    UpdateTimeLimitKeepsProgress(InitializeTracking(t, h, Some(30), None, t0), h, Some(45), 0);
  }

  /** With a session opened on a tab showing `h` at the same moment, the
      interval ticks `h`, and its two ticks over the test's 2 s add exactly
      2000 ms: the site is still tracking, unpaused, and its time is
      positive, as the test expects. */
  lemma TestRunnerWithSessionAccumulates(store: map<string, SiteRecord>, armed: map<string, int>,
                                         h: string, tabId: TabId, t0: int)
    ensures var s := StartTracking(TestRunnerSetup(store, armed, h, t0), tabId, h, t0);
            var r := Ticks(s, h, [t0 + 1000, t0 + 2000]);
            && s.intervalId.Some? && s.intervals == map[s.intervalId.value := h]
            && h in r.trackingStates
            && r.trackingStates[h].time == 2000 > 0
            && r.trackingStates[h].isTracking && !r.trackingStates[h].isPaused
  {
    var t := TestRunnerSetup(store, armed, h, t0);
    TestRunnerStartsNoInterval(store, armed, h, t0);
    assert t.trackingStates[h].lastUpdateTime == t0 && LimitMs(t.trackingStates[h]) == Some(2700000);
    var s := StartTracking(t, tabId, h, t0);
    assert s.intervals == map[1 := h] && s.intervalId == Some(1);
    var nows := [t0 + 1000, t0 + 2000];
    UpdateTimeAccrues(s, h, nows[0]);
    var s1 := TrackingSpec.UpdateTime(s, h, nows[0]);
    UpdateTimeAccrues(s1, h, nows[1]);
    assert Ticks(s, h, nows) == Ticks(s1, h, nows[1..]);
    assert Ticks(s1, h, nows[1..]) == TrackingSpec.UpdateTime(s1, h, nows[1]) by {
      assert nows[1..][1..] == [];
    }
  }
}
