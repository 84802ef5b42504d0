# Time limits per website, modelled in Dafny

This project models the browser extension that tracks how long you spend on each
website and stops you at a daily limit. The core is the `TimeTracker` class, which
exists in two versions:

- `background.js` holds the live one. It keeps a map from hostname to tracking
  state: is the site tracked, is it paused, the time so far, the base limit, the
  minutes added by extensions, and the reminder. It also keeps a set of ignored
  sites and the current session: the active tab, the clock start and the running
  interval. Each tick of the interval adds the time since the last tick to the
  site in front, stores it and broadcasts it. It pauses the site once the limit
  (`(initialLimit + totalExtendedTime) * 60000` ms) is reached. It is meant to
  show a reminder when a percentage of the limit is crossed, but as written the
  reminder check throws before sending it, so no reminder is ever shown (see
  "## Findings"). The `addSite`,
  `updateSiteSettings` and `rerunTracking` messages create, merge and reset
  stored site records.
- `tracking_test.js` holds a stand-alone tracker. Each site keeps its own
  `lastUpdateTime`, and starting a session always stops the previous one.

Next to the tracker, the model covers:

- from the popup (`popup.js`): the hours/minutes/seconds display, the site-name
  extraction, the reminder and category lists, the popup's own rerun of a site
  record, and the "check all" toggle;
- from the content script (`content.js`): the hour/minute limit picker, the
  "dismiss for 5 minutes" bookkeeping of the limit overlay, and the over-limit
  check at page load.

Each tracker is modelled twice:

- as a state machine over values (`BackgroundSpec`, `TrackingSpec`), with one
  function per method or message handler;
- as a class with the source's own fields (`Background.TimeTracker`,
  `Tracking.TimeTracker`). Each method changes those fields step by step and is
  proved to end in the state the matching function gives, and to keep the
  invariant `Inv`.

The properties are lemmas over the functions, in `BackgroundProperties` and
`TrackingProperties`:

- what one tick adds;
- when an alarm is armed;
- that the limit notice and the reminder are sent at most once over any run of
  ticks;
- that a run of ticks adds up to wall-clock time.

Each callback chain is flattened into one sequential step. What the browser would
supply is passed in as input:

- the clock reading `now`;
- the hostname a tab resolves to;
- the active tab of the current window.

The browser services are modelled as follows:

- local storage is a map from hostname to `SiteRecord`, where every field is an
  `Option` because records are spread into one another;
- alarms are a map from alarm name to delay in milliseconds;
- running intervals are a set of ids, or a map from id to the hostname it ticks;
- messages go to an append-only outbox.

## Model

| member | source | states |
|---|---|---|
| Limits.AlarmDelay | background.js:68-73 | an alarm is armed exactly when time is strictly below the effective limit, and its positive delay added to the time gives the limit |
| Records.LimitNoticesAppend | background.js:112-118 | limit notices in concatenated message logs add up |
| Records.ReminderNoticesAppend | background.js:125-128 | reminder banners in concatenated message logs add up |
| BackgroundProperties.InitialKeepsInv | background.js:3-10 | a new tracker (no session, no states, no intervals) satisfies the invariant |
| BackgroundProperties.PauseTrackingKeepsInv | background.js:173-184 | pausing keeps the invariant |
| BackgroundProperties.StartTrackingForHostnameKeepsInv | background.js:61-74 | starting a site's interval keeps the invariant |
| BackgroundProperties.StoreAndCheckLimitKeepsInv | background.js:93-119 | storing the time and the limit check keep the invariant |
| BackgroundProperties.UpdateStorageKeepsInv | background.js:93-133 | the whole storage callback keeps the invariant |
| BackgroundProperties.SaveTimeForActiveTabKeepsInv | background.js:76-91 | a tick keeps the invariant |
| BackgroundProperties.UpdateTimeLimitKeepsInv | background.js:135-149 | changing the limit keeps the invariant |
| BackgroundProperties.InitializeTrackingKeepsInv | background.js:151-171 | initialising a site keeps the invariant |
| BackgroundProperties.ResumeTrackingKeepsInv | background.js:186-192 | resuming keeps the invariant |
| BackgroundProperties.CloseSessionKeepsInv | background.js:28-38 | closing the old session keeps the invariant, makes the new tab active from `now` and leaves the cleared interval no longer running |
| BackgroundProperties.HandleTabChangeKeepsInv | background.js:28-59 | a tab change keeps the invariant |
| BackgroundProperties.HandleTabUpdatedKeepsInv | background.js:17-21 | a completed load keeps the invariant |
| BackgroundProperties.HandleAlarmKeepsInv | background.js:198-228 | handling any alarm keeps the invariant |
| BackgroundProperties.AddSiteKeepsInv | background.js:248-266 | `addSite` keeps the invariant |
| BackgroundProperties.UpdateSiteSettingsKeepsInv | background.js:270-294 | `updateSiteSettings` keeps the invariant |
| BackgroundProperties.RerunTrackingKeepsInv | background.js:295-317 | `rerunTracking` keeps the invariant |
| BackgroundProperties.TickOnTrackedSite | background.js:76-91 | a tick for a tracking, unpaused site adds exactly `now - startTime` to that site only, restarts the clock, and sends the time update, then the limit notice when the limit is reached, then the reminder when its threshold is crossed |
| BackgroundProperties.TickAtLimitPauses | background.js:109-119 | reaching the limit pauses the site, clears its alarm and stops the interval; below the limit alarms and intervals are untouched |
| BackgroundProperties.TickWithoutAccrual | background.js:82-90 | a tick for a missing, untracked or paused site only restarts the clock |
| BackgroundProperties.StartArmsOnlyUnderLimit | background.js:61-74 | starting a session arms the site's alarm with the time left exactly when it is tracking, unpaused and under the limit |
| BackgroundProperties.InitializeArmsOnlyUnderLimit | background.js:163-170 | initialising arms the alarm exactly when the new state is under its limit, with the time left as its delay |
| BackgroundProperties.UpdateTimeLimitKeepsProgress | background.js:135-149 | unknown site: no-op; known site: only the two limit fields change, time, tracking, pause and reminder are kept, and the alarm is re-armed only for a tracking, unpaused site under the new limit |
| BackgroundProperties.InitializeTrackingReplacesState | background.js:151-161 | the site's state is replaced by a tracking, unpaused one whose time and extension default to 0; other sites are kept |
| BackgroundProperties.AddSiteStartsFresh | background.js:248-263 | `addSite` stores time 0, extension 0 and the limit as `initialLimit` (no `limit` field), and starts an unpaused state with that limit |
| BackgroundProperties.RerunTrackingResets | background.js:295-314 | rerun stores time 0, tracking on, unpaused, keeps the extension only with `preserveSettings`, keeps every other stored field, and reports the new record |
| BackgroundProperties.RerunMissingRecordKeepingSettings | background.js:297-303 | rerunning a site with no record while keeping settings throws before any change |
| BackgroundProperties.UpdateSiteSettingsKeepsTime | background.js:270-290 | the settings are merged over the stored record, the state's time and pause are kept, its limit is the merged one, and the merged record is reported |
| BackgroundProperties.ResumeLeavesOldIntervalRunning | background.js:186-192 | resuming while an interval runs starts a second one and leaves the old one running, no longer named by `intervalId` |
| BackgroundProperties.HandleTabChangeRoutes | background.js:28-59 | the new tab is active from `now` with no old interval running; an ignored site gets nothing more; a site with no record gets only `promptTrack`; a new interval starts exactly for a recorded, tracking, unpaused state |
| BackgroundProperties.DismissAlarmRedelivers | background.js:198-216 | an alarm `dismiss_<h>` changes nothing but re-sends the notice for `h` when `h` is in front |
| BackgroundProperties.LimitAlarmPausesOnlyInFront | background.js:198-228 | any other alarm `h` pauses `h` and notifies the active tab exactly when that tab shows `h`; otherwise nothing changes |
| BackgroundProperties.TickSendsReminderOnCrossing | background.js:121-129 | a tick sends the reminder exactly when the site accrues, has a reminder and a limit, and `previous < limit * percentage / 100 <= new time` |
| BackgroundProperties.ReminderLostAsWritten | background.js:122-129 | as written the storage callback never sends a reminder and throws whenever the corrected one would send it; it otherwise equals the corrected callback; a concrete crossing is exhibited |
| BackgroundProperties.TickStep | background.js:76-91 | one tick appends exactly its messages and updates only the ticked site |
| BackgroundProperties.TickMessageCounts | background.js:109-129 | one tick sends one limit notice exactly when it reaches the limit, and one reminder exactly when it crosses the threshold |
| BackgroundProperties.TicksOnlyAppend | background.js:66 | a run of ticks only appends messages and keeps the set of sites |
| BackgroundProperties.SentSplits | background.js:66 | a run's messages are the first tick's followed by the rest's |
| BackgroundProperties.PausedTicksAreFrozen | background.js:84 | once a site is paused, its ticks only move the clock |
| BackgroundProperties.LimitNoticeAtMostOnce | background.js:109-119 | over any run of ticks, at most one limit notice is sent for the site |
| BackgroundProperties.SessionTimeIsWallClock | background.js:76-91 | within a session, until the limit pauses it, the site's time grows by exactly the wall-clock time from the session start to the last tick |
| BackgroundProperties.LimitNoticeOnceReached | background.js:109-119 | when the session reaches the limit by the last tick, exactly one limit notice is sent |
| BackgroundProperties.NoReminderOnceSpent | background.js:122-124 | with a monotone clock, a site past its reminder threshold, or paused, gets no more reminders |
| BackgroundProperties.ReminderAtMostOnce | background.js:122-129 | with a monotone clock, a run of ticks sends the reminder at most once |
| Background.TimeTracker.constructor | background.js:3-10 | a new tracker equals the initial model and satisfies the invariant |
| Background.TimeTracker.PauseTracking | background.js:173-184 | the fields become `BackgroundSpec.PauseTracking` of the old ones; the invariant is kept |
| Background.TimeTracker.StartTrackingForHostname | background.js:61-74 | as `BackgroundSpec.StartTrackingForHostname` |
| Background.TimeTracker.UpdateStorage | background.js:93-133 | as `BackgroundSpec.UpdateStorage`, the corrected callback |
| Background.TimeTracker.SaveTimeForActiveTab | background.js:76-91 | as `BackgroundSpec.SaveTimeForActiveTab` |
| Background.TimeTracker.UpdateTimeLimit | background.js:135-149 | as `BackgroundSpec.UpdateTimeLimit` |
| Background.TimeTracker.InitializeTracking | background.js:151-171 | as `BackgroundSpec.InitializeTracking` |
| Background.TimeTracker.ResumeTracking | background.js:186-192 | as `BackgroundSpec.ResumeTracking` |
| Background.TimeTracker.IgnoreSite | background.js:194-196 | the hostname joins the ignored set; nothing else changes |
| Background.TimeTracker.CloseSession | background.js:28-38 | as `BackgroundSpec.CloseSession` |
| Background.TimeTracker.HandleTabChange | background.js:28-59 | as `BackgroundSpec.HandleTabChange` |
| Background.TimeTracker.HandleTabUpdated | background.js:17-21 | a completed load of the active tab is a tab change; anything else changes nothing |
| Background.TimeTracker.HandleDismissAlarm | background.js:207-216 | as `BackgroundSpec.HandleDismissAlarm` |
| Background.TimeTracker.HandleTimeLimitAlarm | background.js:218-228 | as `BackgroundSpec.HandleTimeLimitAlarm` |
| Background.TimeTracker.HandleAlarm | background.js:198-205 | as `BackgroundSpec.HandleAlarm` |
| Background.AddSite | background.js:248-266 | as `BackgroundSpec.AddSite` |
| Background.UpdateSiteSettings | background.js:270-294 | as `BackgroundSpec.UpdateSiteSettings` |
| Background.RerunTracking | background.js:295-317 | as `BackgroundSpec.RerunTracking` |
| TrackingProperties.InitialKeepsInv | tracking_test.js:3-8 | a new tracker satisfies the invariant |
| TrackingProperties.UpdateAlarmKeepsInv | tracking_test.js:35-46 | `updateAlarm` keeps the invariant |
| TrackingProperties.InitializeTrackingKeepsInv | tracking_test.js:11-22 | `initializeTracking` keeps the invariant |
| TrackingProperties.UpdateTimeLimitKeepsInv | tracking_test.js:25-32 | `updateTimeLimit` keeps the invariant |
| TrackingProperties.StopTrackingKeepsInv | tracking_test.js:66-73 | `stopTracking` keeps the invariant |
| TrackingProperties.StartTrackingKeepsInv | tracking_test.js:49-63 | `startTracking` keeps the invariant (at most one interval) |
| TrackingProperties.PauseTrackingKeepsInv | tracking_test.js:118-125 | `pauseTracking` keeps the invariant |
| TrackingProperties.UpdateTimeKeepsInv | tracking_test.js:76-115 | `updateTime` keeps the invariant |
| TrackingProperties.ResumeTrackingKeepsInv | tracking_test.js:128-135 | `resumeTracking` keeps the invariant |
| TrackingProperties.UpdateAlarmArmsOnlyUnderLimit | tracking_test.js:35-46 | only the site's own alarm changes; it is armed only for a tracking, unpaused site strictly under its limit, with the time left, and there is one alarm per hostname |
| TrackingProperties.InitializeTrackingReplacesState | tracking_test.js:11-22 | the site's state is replaced by a tracking, unpaused one at time 0 with the given limit and extension (default 0); the alarm is armed exactly when the limit is positive |
| TrackingProperties.UpdateTimeLimitKeepsProgress | tracking_test.js:25-32 | unknown site: no-op; known site: only the two limit fields change, and the alarm follows `updateAlarm` |
| TrackingProperties.StopTrackingIdempotent | tracking_test.js:66-73 | stopping twice is stopping once |
| TrackingProperties.StopTrackingEndsSession | tracking_test.js:66-73 | afterwards no interval runs and no session is open; states, storage, alarms and messages are untouched |
| TrackingProperties.StartTrackingKeepsOneInterval | tracking_test.js:49-63 | the previous session ends; a single new interval ticking `h` runs exactly when the site is tracking and unpaused |
| TrackingProperties.UpdateTimeSkipsIdleSite | tracking_test.js:76-78 | a tick for a missing, untracked or paused site changes nothing |
| TrackingProperties.UpdateTimeAccrues | tracking_test.js:76-103 | a tick adds exactly `now - lastUpdateTime`, moves the mark to `now`, never lowers time under a monotone clock, stores the new time, and pauses exactly at the limit |
| TrackingProperties.UpdateTimeAtLimitPauses | tracking_test.js:103-111 | at the limit the site is paused, its alarm cleared and the session ended; the notice goes to a null tab |
| TrackingProperties.ResumeSkipsPausedSpan | tracking_test.js:128-135 | the first tick after a resume counts only the time since the resume |
| TrackingProperties.TimeAwayCountedOnReturn | tracking_test.js:49-63 | the first tick after returning to a tab also counts the time spent away |
| TrackingProperties.TickStep | tracking_test.js:76-115 | one tick appends exactly its messages and updates only the ticked site |
| TrackingProperties.TicksOnlyAppend | tracking_test.js:59 | a run of ticks only appends messages and keeps the set of sites |
| TrackingProperties.SentSplits | tracking_test.js:59 | a run's messages are the first tick's followed by the rest's |
| TrackingProperties.IdleTicksAreFrozen | tracking_test.js:78 | once a site is paused or untracked, its ticks change nothing |
| TrackingProperties.LimitNoticeAtMostOnce | tracking_test.js:103-111 | over any run of ticks, at most one limit notice is sent for the site |
| TrackingProperties.TicksKeepBalance | tracking_test.js:81-83 | ticks keep `time - lastUpdateTime` of the site fixed |
| TrackingProperties.TicksAddWallClock | tracking_test.js:76-83 | until the limit pauses it, the site's time grows by exactly the wall-clock time from its last update to the last tick |
| TrackingProperties.TicksNeverLoseTime | tracking_test.js:76-83 | with a monotone clock, a run of ticks never lowers the site's time |
| TrackingProperties.TestRunnerStartsNoInterval | test_runner.js:6-25 | after the runner's `initializeTracking` and `updateTimeLimit` no interval runs and no session is open, so the site's time is 0 and nothing can raise it |
| TrackingProperties.TestRunnerWithSessionAccumulates | test_runner.js:21-25 | once a session is opened on the site, two ticks over 2 s leave it tracking, unpaused, with time 2000 > 0 |
| Tracking.TimeTracker.constructor | tracking_test.js:3-8 | a new tracker equals the initial model and satisfies the invariant |
| Tracking.TimeTracker.UpdateAlarm | tracking_test.js:35-46 | the fields become `TrackingSpec.UpdateAlarm` of the old ones |
| Tracking.TimeTracker.InitializeTracking | tracking_test.js:11-22 | as `TrackingSpec.InitializeTracking`; the invariant is kept |
| Tracking.TimeTracker.UpdateTimeLimit | tracking_test.js:25-32 | as `TrackingSpec.UpdateTimeLimit` |
| Tracking.TimeTracker.StopTracking | tracking_test.js:66-73 | as `TrackingSpec.StopTracking` |
| Tracking.TimeTracker.StartTracking | tracking_test.js:49-63 | as `TrackingSpec.StartTracking`; the invariant is kept |
| Tracking.TimeTracker.OpenSession | tracking_test.js:49-63 | the steps of `startTracking` end in `TrackingSpec.StartTracking` of the old state |
| Tracking.TimeTracker.StartInterval | tracking_test.js:59 | the next interval id becomes the running interval, ticking the hostname |
| Tracking.TimeTracker.PauseTracking | tracking_test.js:118-125 | as `TrackingSpec.PauseTracking` |
| Tracking.TimeTracker.UpdateTime | tracking_test.js:76-115 | as `TrackingSpec.UpdateTime`; the invariant is kept |
| Tracking.TimeTracker.Tick | tracking_test.js:76-115 | the steps of `updateTime` end in `TrackingSpec.UpdateTime` of the old state |
| Tracking.TimeTracker.StoreTime | tracking_test.js:82-100 | the advanced state is kept, its time written to storage and broadcast |
| Tracking.TimeTracker.ResumeTracking | tracking_test.js:128-135 | as `TrackingSpec.ResumeTracking` |
| Tracking.TimeTracker.GetState | tracking_test.js:138-140 | the site's state when known, absent otherwise |
| Popup.FormatTimeSplitsSeconds | popup.js:32-35 | for `ms >= 0` the display splits the whole seconds into hours, minutes below 60 and seconds below 60 that add back up |
| Popup.StripWww | popup.js:36 | one leading `www.` is removed, and nothing else |
| Popup.FirstLabel | popup.js:36 | the result has no dot, is a prefix of the input, and is followed by a dot or the end |
| Popup.FirstLabelOfJoin | popup.js:88 | the first label of `a.b` is `a` when `a` has no dot |
| Popup.SiteNameOfHost | popup.js:36 | the name of `www.<name>.<rest>` and of `<name>.<rest>` is `<name>` |
| Popup.TrimStart | popup.js:234 | only leading white space is removed |
| Popup.TrimEnd | popup.js:234 | only trailing white space is removed |
| Popup.TrimEmptyIffBlank | popup.js:234-236 | a trimmed text is empty exactly when the input is all white space |
| Popup.TrimIdempotent | popup.js:284 | trimming twice is trimming once |
| Popup.RemoveAtRemovesExactly | popup.js:252 | `splice(i, 1)` at a valid index removes exactly element `i` and keeps the rest in order; past the end it removes nothing; a negative index counts from the end |
| Popup.AddReminderAppendsOnlyValid | popup.js:233-247 | a reminder is appended exactly when the trimmed text is non-empty and `0 < percentage < 100`; otherwise the list is unchanged; valid lists stay valid |
| Popup.RemoveReminderKeepsValid | popup.js:249-255 | removing a reminder keeps the list valid |
| Popup.PresetNamesUnique | popup.js:2-11 | the eight presets have distinct names |
| Popup.AddCategoryKeepsNamesUnique | popup.js:283-299 | a category is appended exactly when its trimmed name is non-empty and not taken and its limit is positive; names stay unique |
| Popup.RemoveCategoryKeepsPresets | popup.js:301-311 | an index below 8 changes nothing; the preset prefix is kept; a higher valid index removes one entry |
| Popup.RerunRecordResetsTimeOnly | popup.js:104-114 | the record gets time 0 and tracking on, every other field and site is kept, rerunning is idempotent, and the background's rerun afterwards gives what it gives alone |
| Popup.ToggleAlternates | popup.js:165-172 | after a toggle all boxes agree, and a second toggle flips them |
| Popup.AllChecked | popup.js:168 | the result is true exactly when every box is checked |
| Popup.ToggleCheckAll | popup.js:165-172 | all boxes become unchecked when all were checked, otherwise all checked; the label follows |
| Popup.Settings.constructor | popup.js:237-238 | the lists and records are the ones read from storage |
| Popup.Settings.AddReminder | popup.js:233-247 | the reminders become `RemindersAfterAdd` of the old ones; nothing else changes |
| Popup.Settings.RemoveReminder | popup.js:249-255 | the reminders become `RemoveAt` of the old ones |
| Popup.Settings.AddCategory | popup.js:283-299 | the categories become `CategoriesAfterAdd` of the old ones, found by a loop over the list |
| Popup.Settings.RemoveCategory | popup.js:301-311 | the categories become `CategoriesAfterRemove` of the old ones |
| Popup.Settings.RerunTracking | popup.js:104-114 | the records become `RerunRecord` of the old ones |
| Content.OptionValues | content.js:56-68 | the picker offers exactly the values `0..last` in order |
| Content.PickerLimitRoundTrip | content.js:70-73 | the limit is in `0..1439`, gives the hour and minute back, and is 0 only for 0 h 0 min |
| Content.ZeroLimitIsReachedAtOnce | content.js:73 | a site added with limit 0 is at its limit at once and gets no alarm |
| Content.DismissSuppressesForFiveMinutes | content.js:89-97 | after a dismissal the overlay is hidden exactly until five minutes after it was shown, the re-check five minutes after the click shows it again, and other hostnames are unaffected |
| Content.DismissalStore.constructor | content.js:90-91 | the deadlines are the ones read from storage |
| Content.DismissalStore.ShowOverlay | content.js:89-97 | the overlay is shown exactly when it is not suppressed |
| Content.DismissalStore.Dismiss | content.js:140-148 | the deadline of that hostname becomes the time the overlay was shown plus 5 minutes |
| Content.PageLoadOverlayAgreesWithBackground | content.js:166-176 | the corrected page-load check holds exactly when the background's state for the record is at its limit |
| Content.PageLoadCheckMissesAddedSites | content.js:169-172 | the check as written never fires for a record `addSite` stored; a concrete over-limit record is exhibited |

## Left out

- Asynchronous interleavings: every callback chain runs to completion as one step. Races such as the old tab's flush resolving its hostname after `activeTabId` was reassigned are not modelled.
- The browser APIs themselves: storage, alarms, tabs and messaging are maps and an outbox. `Date`, `setInterval` and `setTimeout` are replaced by explicit `now` inputs. The `setTimeout` re-check after a dismissal is a second call at the later time.
- `new URL(...).hostname` parsing: the hostname is an input.
- Fractional `delayInMinutes`: alarm delays stay in integer milliseconds. Only the `> 0` guard is modelled, which has the same sign as the source's minutes.
- Floating point: the model uses exact integer arithmetic. This covers the reminder threshold `totalLimit * (percentage / 100)`, the display's `time / 1000`, and `parseInt` results, which are `Option<int>` (absent for NaN).
- Popup.FormatTime: the display of an absent `time` (NaN) and of negative times is not covered by its lemma.
- DOM rendering, dialogs, `alert`/`confirm`, console logging, the picker's option labels and the list markup.
- `updateSiteCategory`, `deleteSelected` and the edit-mode flag in popup.js: these are UI plumbing outside the modelled operations.
- The `onInstalled` category seeding at the end of background.js.
- test_runner.js is modelled only through its expectations. Tests 1 and 2 are stated by TrackingProperties.InitializeTrackingReplacesState and TrackingProperties.UpdateTimeLimitKeepsProgress. Test 3 cannot hold as written and is under "## Findings".
- Schedules: they are stored and passed along, never read.
- Alarms that the browser removes when they fire: a fired alarm stays in the alarm map until it is cleared.
- Tracking.TimeTracker.GetState: it returns a copy of the state, so later changes through the returned object (aliasing) are not modelled.
- The ignored-sites set of background.js is never emptied or persisted, and the model keeps it the same way.

## Findings

| source | as written | input that shows it | evidently intended | confidence | as-written member | corrected member |
|---|---|---|---|---|---|---|
| background.js:124 | the reminder check in `updateStorage` reads `timeSpent`, which exists only in `saveTimeForActiveTab` (line 78); once `state.time` reaches the threshold, reading it throws a ReferenceError, so the reminder is never sent | a 10-minute limit with a reminder at 50%, ticking from 299000 ms to 300000 ms | send the reminder on the tick whose previous time was below the threshold and whose new time is at or above it | not executed | BackgroundProperties.ReminderLostAsWritten | BackgroundProperties.TickSendsReminderOnCrossing |
| content.js:169 | the page-load check reads the record's `limit` field, but `addSite` stores the limit as `initialLimit` (background.js:251), so the check never fires for sites added through the prompt | a site added with a 30-minute limit that has 1800000 ms stored | compare the stored time with the effective limit `(initialLimit + totalExtendedTime) * 60000`, as the background does | not executed | Content.PageLoadCheckMissesAddedSites | Content.PageLoadOverlayAgreesWithBackground |
| test_runner.js:21-25 | the third test waits 2 s and expects the site's time to be positive, but the runner only calls `initializeTracking` and `updateTimeLimit`; neither starts an interval (tracking_test.js:11-33), and no session is opened, so nothing ticks and the time stays 0 | the runner's own sequence: `initializeTracking('example.com', 30)`, then `updateTimeLimit('example.com', 45, 0)`, then a 2 s wait | open a session on a tab showing the site with `startTracking` before waiting, so that the interval's two ticks add 2000 ms | not executed | TrackingProperties.TestRunnerStartsNoInterval | TrackingProperties.TestRunnerWithSessionAccumulates |
