/** The values that cross the extension's boundaries: site records as kept in
    local storage, and the messages the background sends to pages and to the
    popup. */
module Records {
  import opened Limits

  /** Browser tab ids are positive, so a present id is always truthy. */
  type TabId = id: int | id > 0 witness 1

  datatype Reminder = Reminder(text: string, percentage: int)

  /** A daily window; the tracker stores it but never reads it. */
  datatype Schedule = Schedule(startTime: string, stopTime: string)

  /** One hostname's entry in local storage. Every field may be absent:
      records are plain objects that handlers spread into one another, and
      storage drops `undefined` values. `limit` is the legacy field that the
      page-load check in the content script reads. */
  datatype SiteRecord = SiteRecord(
    time: Option<int>,
    initialLimit: Option<int>,
    totalExtendedTime: Option<int>,
    isTracking: Option<bool>,
    isPaused: Option<bool>,
    reminder: Option<Reminder>,
    schedule: Option<Schedule>,
    category: Option<string>,
    limit: Option<int>)

  /** `{}`: the record a handler starts from when storage has none. */
  const NoFields: SiteRecord :=
    SiteRecord(None, None, None, None, None, None, None, None, None)

  function Pick<T>(base: Option<T>, patch: Option<T>): Option<T> {
    if patch.Some? then patch else base
  }

  /** `{...base, ...patch}`: every field present in `patch` wins. */
  function Merge(base: SiteRecord, patch: SiteRecord): SiteRecord {
    SiteRecord(
      Pick(base.time, patch.time),
      Pick(base.initialLimit, patch.initialLimit),
      Pick(base.totalExtendedTime, patch.totalExtendedTime),
      Pick(base.isTracking, patch.isTracking),
      Pick(base.isPaused, patch.isPaused),
      Pick(base.reminder, patch.reminder),
      Pick(base.schedule, patch.schedule),
      Pick(base.category, patch.category),
      Pick(base.limit, patch.limit))
  }

  /** The figures a limit-reached notice carries, when it carries any. */
  datatype LimitDetails = LimitDetails(currentTime: int, initialLimit: Option<int>, totalExtendedTime: int)

  /** Messages sent by a tracker. `to` is the tab a page message is addressed
      to; `None` is a null tab id, which reaches no page. */
  datatype Message =
    | PromptTrack(tab: TabId, hostname: string)
    | UpdateTime(hostname: string, time: int)
    | ShowTimeLimitReached(to: Option<TabId>, hostname: string, details: Option<LimitDetails>)
    | ShowCustomReminder(to: Option<TabId>, text: string)
    | SiteSettingsUpdated(hostname: string, newData: SiteRecord)

  /** The number of limit-reached notices for `h` among `msgs`. */
  function LimitNotices(msgs: seq<Message>, h: string): nat {
    if msgs == [] then 0
    else (if msgs[0].ShowTimeLimitReached? && msgs[0].hostname == h then 1 else 0) + LimitNotices(msgs[1..], h)
  }

  /** The number of reminder banners among `msgs`. */
  function ReminderNotices(msgs: seq<Message>): nat {
    if msgs == [] then 0
    else (if msgs[0].ShowCustomReminder? then 1 else 0) + ReminderNotices(msgs[1..])
  }

  lemma {:induction false} LimitNoticesAppend(a: seq<Message>, b: seq<Message>, h: string)
    ensures LimitNotices(a + b, h) == LimitNotices(a, h) + LimitNotices(b, h)
  {
    if a != [] {
      assert (a + b)[1..] == a[1..] + b;
      LimitNoticesAppend(a[1..], b, h);
    } else {
      assert a + b == b;
    }
  }

  lemma {:induction false} ReminderNoticesAppend(a: seq<Message>, b: seq<Message>)
    ensures ReminderNotices(a + b) == ReminderNotices(a) + ReminderNotices(b)
  {
    if a != [] {
      assert (a + b)[1..] == a[1..] + b;
      ReminderNoticesAppend(a[1..], b);
    } else {
      assert a + b == b;
    }
  }

  /** What follows `a` in a log that starts with `a + m` is `m` and then what
      follows `a + m`. */
  lemma SuffixSplits<T>(a: seq<T>, m: seq<T>, b: seq<T>)
    requires a + m <= b
    ensures a <= b
    ensures b[|a|..] == m + b[|a + m|..]
  {
    assert b[..|a|] == (a + m)[..|a|] == a;
  }
}
