/** The stand-alone tracker of tracking_test.js as a state machine over
    values. It differs from the background tracker in three ways: each site
    state carries its own `lastUpdateTime`, from which every tick measures the
    elapsed time; starting a session always stops the previous one first; and
    pausing ends the session. Storage, alarms, intervals and sent messages are
    part of the state as in `BackgroundSpec`; the clock is an input. */
module TrackingSpec {
  import opened Limits
  import opened Records

  /** What `trackingStates` holds for one hostname. `initialLimit` is absent
      when `initializeTracking` was given none; the resulting limit is then
      NaN and no comparison with it holds. */
  datatype SiteState = SiteState(
    isTracking: bool,
    isPaused: bool,
    time: int,
    initialLimit: Option<int>,
    totalExtendedTime: int,
    lastUpdateTime: int)

  /** The fields of `TimeTracker` and the collaborators it drives. `intervals`
      maps each running interval to the hostname it ticks. */
  datatype Tracker = Tracker(
    activeTabId: Option<TabId>,
    startTime: Option<int>,
    intervalId: Option<nat>,
    intervals: map<nat, string>,
    nextIntervalId: nat,
    trackingStates: map<string, SiteState>,
    store: map<string, SiteRecord>,
    alarms: map<string, int>,
    outbox: seq<Message>)

  predicate Accrues(s: SiteState) {
    s.isTracking && !s.isPaused
  }

  /** `(initialLimit + totalExtendedTime) * 60 * 1000`, absent when the base
      limit is. */
  function LimitMs(s: SiteState): Option<int> {
    match s.initialLimit
    case Some(l) => Some(EffectiveLimitMs(l, s.totalExtendedTime))
    case None => None
  }

  /** `state.time >= totalLimit`. */
  predicate AtLimit(s: SiteState) {
    LimitMs(s).Some? && s.time >= LimitMs(s).value
  }

  /** What every method keeps true: the session is well formed and the site
      states and alarms agree. */
  ghost predicate Inv(t: Tracker) {
    SessionInv(t) && StatesInv(t)
  }

  /** The only running interval is the one `intervalId` names, and it ticks a
      site that is accruing; interval ids are handed out in order and are
      truthy; a running interval belongs to an open session. */
  ghost predicate SessionInv(t: Tracker) {
    && 1 <= t.nextIntervalId
    && t.intervals.Keys == (if t.intervalId.Some? then {t.intervalId.value} else {})
    && (t.intervalId.Some? ==>
          && 1 <= t.intervalId.value < t.nextIntervalId
          && t.activeTabId.Some? && t.startTime.Some?
          && t.intervals[t.intervalId.value] in t.trackingStates
          && Accrues(t.trackingStates[t.intervals[t.intervalId.value]]))
  }

  /** Every site is tracking; armed delays are positive and a paused site has
      no armed alarm. */
  ghost predicate StatesInv(t: Tracker) {
    && (forall h :: h in t.trackingStates ==> t.trackingStates[h].isTracking)
    && (forall h :: h in t.alarms ==> t.alarms[h] > 0)
    && (forall h :: h in t.alarms && h in t.trackingStates ==> !t.trackingStates[h].isPaused)
  }

  /** `new TimeTracker()`, with the records and alarms the browser holds. */
  function Initial(store: map<string, SiteRecord>, armed: map<string, int>): Tracker {
    Tracker(None, None, None, map[], 1, map[], store, armed, [])
  }

  /** `updateAlarm`: for a tracking, unpaused site with time left, clear the
      site's alarm and create it again with the time left; otherwise leave the
      alarms as they are. */
  function UpdateAlarm(t: Tracker, h: string): Tracker {
    if h !in t.trackingStates || !Accrues(t.trackingStates[h]) then t
    else
      var s := t.trackingStates[h];
      if LimitMs(s).Some? && AlarmDelay(LimitMs(s).value, s.time).Some? then
        t.(alarms := (t.alarms - {h})[h := AlarmDelay(LimitMs(s).value, s.time).value])
      else t
  }

  /** `initializeTracking`: replace the site's state with a fresh one whose
      clock starts at `now`, then update its alarm. A missing extension
      defaults to 0. */
  function InitializeTracking(t: Tracker, h: string, initialLimit: Option<int>,
                              totalExtendedTime: Option<int>, now: int): Tracker {
    var s := SiteState(true, false, 0, initialLimit, totalExtendedTime.GetOr(0), now);
    UpdateAlarm(t.(trackingStates := t.trackingStates[h := s]), h)
  }

  /** `updateTimeLimit`: replace both limit fields, then update the alarm. */
  function UpdateTimeLimit(t: Tracker, h: string, newLimit: Option<int>, newExtendedTime: int): Tracker {
    if h !in t.trackingStates then t
    else
      var s := t.trackingStates[h].(initialLimit := newLimit, totalExtendedTime := newExtendedTime);
      UpdateAlarm(t.(trackingStates := t.trackingStates[h := s]), h)
  }

  /** `stopTracking`: clear the running interval, if any, and close the
      session. */
  function StopTracking(t: Tracker): Tracker {
    var t1 := if t.intervalId.Some? then t.(intervals := t.intervals - {t.intervalId.value}, intervalId := None) else t;
    t1.(activeTabId := None, startTime := None)
  }

  /** `startTracking` for the tab `tabId`, whose hostname the browser resolves
      to `h`: stop the previous session, open one at `now`, and for a
      tracking, unpaused site start an interval ticking `h` and update its
      alarm. The site's `lastUpdateTime` is left as it is. */
  function StartTracking(t: Tracker, tabId: TabId, h: string, now: int): Tracker {
    var t1 := StopTracking(t).(activeTabId := Some(tabId), startTime := Some(now));
    if h in t1.trackingStates && Accrues(t1.trackingStates[h]) then
      var id := t1.nextIntervalId;
      UpdateAlarm(t1.(intervalId := Some(id), intervals := t1.intervals[id := h], nextIntervalId := id + 1), h)
    else t1
  }

  /** `pauseTracking`: pause the site, clear its alarm and stop the session. */
  function PauseTracking(t: Tracker, h: string): Tracker {
    if h !in t.trackingStates then t
    else
      StopTracking(t.(trackingStates := t.trackingStates[h := t.trackingStates[h].(isPaused := true)],
                      alarms := t.alarms - {h}))
  }

  /** A site's state after its tick adds the time since its last update. */
  function Advanced(s: SiteState, now: int): SiteState {
    s.(time := s.time + (now - s.lastUpdateTime), lastUpdateTime := now)
  }

  /** The storage step of `updateTime` for the advanced state `s1`: keep it,
      write its time to storage and broadcast it. */
  function StoreTime(t: Tracker, h: string, s1: SiteState): Tracker {
    var base := if h in t.store then t.store[h] else NoFields;
    t.(trackingStates := t.trackingStates[h := s1],
       store := t.store[h := base.(time := Some(s1.time))],
       outbox := t.outbox + [Message.UpdateTime(h, s1.time)])
  }

  /** The limit notice `updateTime` sends after pausing, addressed to the
      active tab, which the pause has just set to null. */
  function NotifyLimit(p: Tracker, h: string, s1: SiteState): Tracker {
    p.(outbox := p.outbox + [ShowTimeLimitReached(p.activeTabId, h,
                               Some(LimitDetails(s1.time, s1.initialLimit, s1.totalExtendedTime)))])
  }

  /** `updateTime`, run by the interval: for a tracking, unpaused site add the
      time since its last update, write it to storage and broadcast it; at the
      limit pause the site and send the notice. */
  function UpdateTime(t: Tracker, h: string, now: int): Tracker {
    if h !in t.trackingStates || !Accrues(t.trackingStates[h]) then t
    else
      var s1 := Advanced(t.trackingStates[h], now);
      var t1 := StoreTime(t, h, s1);
      if AtLimit(s1) then NotifyLimit(PauseTracking(t1, h), h, s1) else t1
  }

  /** `resumeTracking`: unpause the site, restart its clock at `now` and
      update its alarm. No interval is started. */
  function ResumeTracking(t: Tracker, h: string, now: int): Tracker {
    if h !in t.trackingStates then t
    else
      UpdateAlarm(t.(trackingStates := t.trackingStates[h := t.trackingStates[h].(isPaused := false, lastUpdateTime := now)]), h)
  }

  /** `getState`: the site's state, or undefined. */
  function GetState(t: Tracker, h: string): Option<SiteState> {
    if h in t.trackingStates then Some(t.trackingStates[h]) else None
  }
}
