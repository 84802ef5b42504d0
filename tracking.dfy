/** The stand-alone tracker of tracking_test.js: the `TimeTracker` class,
    whose methods update its session fields and its state map step by step.
    Each method is proved to leave the tracker in the state the matching
    function of `TrackingSpec` describes, and to keep `Spec.Inv`. */
module Tracking {
  import opened Limits
  import opened Records
  import Spec = TrackingSpec
  import Props = TrackingProperties

  class TimeTracker {
    var activeTabId: Option<TabId>
    var startTime: Option<int>
    var intervalId: Option<nat>
    var trackingStates: map<string, Spec.SiteState>

    // The browser services the tracker drives: the running intervals with the
    // hostname each ticks, the next id `setInterval` hands out, the site
    // records in local storage, the armed alarms (name to delay in ms) and
    // every message sent so far.
    var intervals: map<nat, string>
    var nextIntervalId: nat
    var store: map<string, SiteRecord>
    var alarms: map<string, int>
    var outbox: seq<Message>

    function Model(): Spec.Tracker
      reads this
    {
      Spec.Tracker(activeTabId, startTime, intervalId, intervals, nextIntervalId,
                   trackingStates, store, alarms, outbox)
    }

    ghost predicate Valid()
      reads this
    {
      Spec.Inv(Model())
    }

    constructor (persisted: map<string, SiteRecord>, armed: map<string, int>)
      requires forall h :: h in armed ==> armed[h] > 0
      ensures Valid()
      ensures Model() == Spec.Initial(persisted, armed)
    {
      activeTabId := None;
      startTime := None;
      intervalId := None;
      trackingStates := map[];
      intervals := map[];
      nextIntervalId := 1;
      store := persisted;
      alarms := armed;
      outbox := [];
      new;
      Props.InitialKeepsInv(persisted, armed);
    }

    method UpdateAlarm(hostname: string)
      modifies this
      ensures old(Valid()) ==> Valid()
      ensures Model() == Spec.UpdateAlarm(old(Model()), hostname)
    {
      if Valid() {
        Props.UpdateAlarmKeepsInv(Model(), hostname);
      }
      if hostname !in trackingStates {
        return;
      }
      var state := trackingStates[hostname];
      if !state.isTracking || state.isPaused {
        return;
      }
      if state.initialLimit.None? {
        // The limit is NaN: the remaining time is not positive.
        return;
      }
      var totalLimit := EffectiveLimitMs(state.initialLimit.value, state.totalExtendedTime);
      var remainingTime := totalLimit - state.time;
      if remainingTime > 0 {
        alarms := alarms - {hostname};
        alarms := alarms[hostname := remainingTime];
      }
    }

    method InitializeTracking(hostname: string, initialLimit: Option<int>, totalExtendedTime: Option<int>, now: int)
      requires Valid()
      modifies this
      ensures Valid()
      ensures Model() == Spec.InitializeTracking(old(Model()), hostname, initialLimit, totalExtendedTime, now)
    {
      Props.InitializeTrackingKeepsInv(Model(), hostname, initialLimit, totalExtendedTime, now);
      var trackingState := Spec.SiteState(true, false, 0, initialLimit, totalExtendedTime.GetOr(0), now);
      trackingStates := trackingStates[hostname := trackingState];
      UpdateAlarm(hostname);
    }

    method UpdateTimeLimit(hostname: string, newLimit: Option<int>, newExtendedTime: int)
      requires Valid()
      modifies this
      ensures Valid()
      ensures Model() == Spec.UpdateTimeLimit(old(Model()), hostname, newLimit, newExtendedTime)
    {
      Props.UpdateTimeLimitKeepsInv(Model(), hostname, newLimit, newExtendedTime);
      if hostname !in trackingStates {
        return;
      }
      var state := trackingStates[hostname];
      state := state.(initialLimit := newLimit);
      state := state.(totalExtendedTime := newExtendedTime);
      trackingStates := trackingStates[hostname := state];
      UpdateAlarm(hostname);
    }

    method StopTracking()
      modifies this
      ensures old(Valid()) ==> Valid()
      ensures Model() == Spec.StopTracking(old(Model()))
    {
      if Valid() {
        Props.StopTrackingKeepsInv(Model());
      }
      if intervalId.Some? {
        intervals := intervals - {intervalId.value};
        intervalId := None;
      }
      activeTabId := None;
      startTime := None;
    }

    /** `startTracking` for the tab `tabId`, whose URL the browser resolves to
        `hostname`. */
    method StartTracking(tabId: TabId, hostname: string, now: int)
      requires Valid()
      modifies this
      ensures Valid()
      ensures Model() == Spec.StartTracking(old(Model()), tabId, hostname, now)
    {
      Props.StartTrackingKeepsInv(Model(), tabId, hostname, now);
      OpenSession(tabId, hostname, now);
    }

    /** The steps of `startTracking`, whatever the state; `StartTracking` adds
        that they keep the invariant. */
    method OpenSession(tabId: TabId, hostname: string, now: int)
      modifies this
      ensures Model() == Spec.StartTracking(old(Model()), tabId, hostname, now)
    {
      StopTracking();
      activeTabId := Some(tabId);
      startTime := Some(now);
      if hostname in trackingStates && trackingStates[hostname].isTracking && !trackingStates[hostname].isPaused {
        StartInterval(hostname);
        UpdateAlarm(hostname);
      }
    }

    /** `setInterval` for a tick of `hostname`: the next id is handed out and
        recorded as the running interval. */
    method StartInterval(hostname: string)
      modifies this
      ensures Model() == old(Model()).(intervalId := Some(old(nextIntervalId)),
                                       intervals := old(intervals)[old(nextIntervalId) := hostname],
                                       nextIntervalId := old(nextIntervalId) + 1)
    {
      intervalId := Some(nextIntervalId);
      intervals := intervals[nextIntervalId := hostname];
      nextIntervalId := nextIntervalId + 1;
    }

    method PauseTracking(hostname: string)
      modifies this
      ensures old(Valid()) ==> Valid()
      ensures Model() == Spec.PauseTracking(old(Model()), hostname)
    {
      if Valid() {
        Props.PauseTrackingKeepsInv(Model(), hostname);
      }
      if hostname !in trackingStates {
        return;
      }
      trackingStates := trackingStates[hostname := trackingStates[hostname].(isPaused := true)];
      alarms := alarms - {hostname};
      StopTracking();
    }

    /** One tick of the interval for `hostname`, at clock reading `now`. */
    method UpdateTime(hostname: string, now: int)
      requires Valid()
      modifies this
      ensures Valid()
      ensures Model() == Spec.UpdateTime(old(Model()), hostname, now)
    {
      Props.UpdateTimeKeepsInv(Model(), hostname, now);
      Tick(hostname, now);
    }

    /** The steps of `updateTime`, whatever the state; `UpdateTime` adds that
        they keep the invariant. */
    method Tick(hostname: string, now: int)
      modifies this
      ensures Model() == Spec.UpdateTime(old(Model()), hostname, now)
    {
      if hostname !in trackingStates {
        return;
      }
      var state := trackingStates[hostname];
      if !state.isTracking || state.isPaused {
        return;
      }
      var timeSpent := now - state.lastUpdateTime;
      state := state.(time := state.time + timeSpent);
      state := state.(lastUpdateTime := now);
      StoreTime(hostname, state);
      if state.initialLimit.Some? && state.time >= EffectiveLimitMs(state.initialLimit.value, state.totalExtendedTime) {
        PauseTracking(hostname);
        outbox := outbox + [ShowTimeLimitReached(activeTabId, hostname,
                              Some(LimitDetails(state.time, state.initialLimit, state.totalExtendedTime)))];
      }
    }

    /** The storage callback of `updateTime` up to its limit check. */
    method StoreTime(hostname: string, state: Spec.SiteState)
      modifies this
      ensures Model() == Spec.StoreTime(old(Model()), hostname, state)
    {
      trackingStates := trackingStates[hostname := state];
      var siteData := if hostname in store then store[hostname] else NoFields;
      store := store[hostname := siteData.(time := Some(state.time))];
      outbox := outbox + [Message.UpdateTime(hostname, state.time)];
    }

    method ResumeTracking(hostname: string, now: int)
      requires Valid()
      modifies this
      ensures Valid()
      ensures Model() == Spec.ResumeTracking(old(Model()), hostname, now)
    {
      Props.ResumeTrackingKeepsInv(Model(), hostname, now);
      if hostname !in trackingStates {
        return;
      }
      var state := trackingStates[hostname];
      state := state.(isPaused := false);
      state := state.(lastUpdateTime := now);
      trackingStates := trackingStates[hostname := state];
      UpdateAlarm(hostname);
    }

    /** `getState`: the site's state, absent for an unknown site. */
    method GetState(hostname: string) returns (state: Option<Spec.SiteState>)
      ensures state.Some? <==> hostname in trackingStates
      ensures state.Some? ==> state.value == trackingStates[hostname]
    {
      if hostname in trackingStates {
        state := Some(trackingStates[hostname]);
      } else {
        state := None;
      }
    }
  }
}
