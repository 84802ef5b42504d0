/** The settings popup of popup.js: how a site's accumulated time and name are
    shown, the reminder and category lists kept in synced storage, the reset
    of a site record, and the "check all" toggle of the edit mode. */
module Popup {
  import opened Limits
  import opened Records
  import BackgroundSpec

  // ---------------------------------------------------------------------------
  // Time display

  /** Hours, minutes and seconds as the time list shows them. */
  datatype Hms = Hms(hours: int, minutes: int, seconds: int)

  /** JavaScript's `%` on a positive divisor: the remainder takes the sign of
      the dividend. */
  function JsRem(a: int, b: int): int
    requires b > 0
  {
    if a >= 0 then a % b else -((-a) % b)
  }

  /** The display of `ms` milliseconds: `timeSpent = ms / 1000`, then the floor
      of `timeSpent / 3600`, of `(timeSpent % 3600) / 60` and of
      `timeSpent % 60`, each computed exactly on the integer `ms`. */
  function FormatTime(ms: int): Hms {
    Hms(ms / 3600000, JsRem(ms, 3600000) / 60000, JsRem(ms, 60000) / 1000)
  }

  lemma MulAtLeast(k: int, d: int)
    requires k >= 1 && d > 0
    ensures k * d >= d
  {
  }

  /** Division is determined by a quotient and a remainder in range. */
  lemma DivModUnique(x: int, d: int, q: int, r: int)
    requires d > 0 && 0 <= r < d && x == q * d + r
    ensures x / d == q && x % d == r
  {
    var q0, r0 := x / d, x % d;
    assert x == q0 * d + r0;
    if q > q0 {
      assert (q - q0) * d == q * d - q0 * d;
      MulAtLeast(q - q0, d);
    } else if q < q0 {
      assert (q0 - q) * d == q0 * d - q * d;
      MulAtLeast(q0 - q, d);
    }
  }

  /** For a non-negative time the display splits the whole seconds `s` into
      hours, minutes below 60 and seconds below 60 that add back up to `s`. */
  lemma FormatTimeSplitsSeconds(ms: int)
    requires ms >= 0
    ensures var f := FormatTime(ms);
            var s := ms / 1000;
            && f.hours == s / 3600
            && f.minutes == (s % 3600) / 60
            && f.seconds == s % 60
            && 0 <= f.minutes < 60 && 0 <= f.seconds < 60 && f.hours >= 0
            && f.hours * 3600 + f.minutes * 60 + f.seconds == s
  {
    var s, a := ms / 1000, ms % 1000;
    var h, rest := s / 3600, s % 3600;
    var m, sec := rest / 60, rest % 60;
    assert ms == s * 1000 + a;
    assert s == h * 3600 + m * 60 + sec;
    assert ms == h * 3600000 + (m * 60000 + sec * 1000 + a);
    DivModUnique(ms, 3600000, h, m * 60000 + sec * 1000 + a);
    DivModUnique(m * 60000 + sec * 1000 + a, 60000, m, sec * 1000 + a);
    assert ms == (h * 60 + m) * 60000 + (sec * 1000 + a);
    DivModUnique(ms, 60000, h * 60 + m, sec * 1000 + a);
    DivModUnique(sec * 1000 + a, 1000, sec, a);
  }

  // ---------------------------------------------------------------------------
  // Site names

  const WwwPrefix: string := "www."

  /** `hostname.replace(/^www\./, '')`: one leading "www." is removed. */
  function StripWww(hostname: string): (r: string)
    ensures WwwPrefix <= hostname ==> hostname == WwwPrefix + r
    ensures !(WwwPrefix <= hostname) ==> r == hostname
  {
    if WwwPrefix <= hostname then hostname[|WwwPrefix|..] else hostname
  }

  /** `split('.')[0]`: the text before the first dot, or all of it. */
  function FirstLabel(s: string): (r: string)
    ensures '.' !in r
    ensures r <= s
    ensures |r| == |s| || s[|r|] == '.'
  {
    if s == [] || s[0] == '.' then [] else [s[0]] + FirstLabel(s[1..])
  }

  /** The website name shown for a hostname. */
  function SiteName(hostname: string): string {
    FirstLabel(StripWww(hostname))
  }

  /** Splitting undoes joining: the first label of `a.b` is `a` when `a` has no
      dot. */
  lemma {:induction false} FirstLabelOfJoin(a: string, b: string)
    requires '.' !in a
    ensures FirstLabel(a + "." + b) == a
  {
    if a != [] {
      assert (a + "." + b)[1..] == a[1..] + "." + b;
      FirstLabelOfJoin(a[1..], b);
    }
  }

  /** The name of `www.<name>.<rest>` and of `<name>.<rest>` is `<name>`, for
      a name without dots other than "www". */
  lemma SiteNameOfHost(name: string, rest: string)
    requires '.' !in name
    ensures SiteName(WwwPrefix + name + "." + rest) == name
    ensures name != "www" ==> SiteName(name + "." + rest) == name
  {
    assert WwwPrefix + name + "." + rest == WwwPrefix + (name + "." + rest);
    FirstLabelOfJoin(name, rest);
    if name != "www" {
      var j := name + "." + rest;
      if |name| < 3 {
        assert j[|name|] != WwwPrefix[|name|];
      } else if |name| == 3 {
        assert j[..3] == name != WwwPrefix[..3];
      } else {
        assert j[3] == name[3] != WwwPrefix[3];
      }
    }
  }

  // ---------------------------------------------------------------------------
  // Text input

  /** The characters `String.prototype.trim` removes: white space and line
      terminators as ECMAScript defines them. */
  predicate IsJsWhitespace(c: char) {
    var n := c as int;
    n == 0x09 || n == 0x0A || n == 0x0B || n == 0x0C || n == 0x0D || n == 0x20
    || n == 0xA0 || n == 0x1680 || (0x2000 <= n <= 0x200A) || n == 0x2028 || n == 0x2029
    || n == 0x202F || n == 0x205F || n == 0x3000 || n == 0xFEFF
  }

  function TrimStart(s: string): (r: string)
    ensures |r| <= |s| && r == s[|s| - |r|..]
    ensures r == [] || !IsJsWhitespace(r[0])
    ensures forall k :: 0 <= k < |s| - |r| ==> IsJsWhitespace(s[k])
  {
    if s != [] && IsJsWhitespace(s[0]) then TrimStart(s[1..]) else s
  }

  function TrimEnd(s: string): (r: string)
    ensures r <= s
    ensures r == [] || !IsJsWhitespace(r[|r| - 1])
    ensures forall k :: |r| <= k < |s| ==> IsJsWhitespace(s[k])
  {
    if s != [] && IsJsWhitespace(s[|s| - 1]) then TrimEnd(s[..|s| - 1]) else s
  }

  /** `trim()`: the text between leading and trailing white space. */
  function Trim(s: string): string {
    TrimEnd(TrimStart(s))
  }

  /** A trimmed text is empty, and so falsy, exactly when the input is all
      white space; otherwise it starts and ends with other characters. */
  lemma TrimEmptyIffBlank(s: string)
    ensures Trim(s) == [] <==> forall k :: 0 <= k < |s| ==> IsJsWhitespace(s[k])
    ensures Trim(s) != [] ==> !IsJsWhitespace(Trim(s)[0]) && !IsJsWhitespace(Trim(s)[|Trim(s)| - 1])
  {
    var a := TrimStart(s);
    if Trim(s) != [] {
      assert Trim(s)[0] == a[0];
    }
    if forall k :: 0 <= k < |s| ==> IsJsWhitespace(s[k]) {
      if a != [] {
        assert a[0] == s[|s| - |a|];
      }
    }
  }

  /** Trimming twice is trimming once. */
  lemma TrimIdempotent(s: string)
    ensures Trim(Trim(s)) == Trim(s)
  {
    var r := Trim(s);
    TrimEmptyIffBlank(s);
    if r != [] {
      assert TrimStart(r) == r;
      assert TrimEnd(r) == r;
    }
  }

  // ---------------------------------------------------------------------------
  // Lists in synced storage

  /** `Array.prototype.splice(index, 1)` on a list: the element at `index`
      (counted from the end when negative) is removed; an index past the end
      removes nothing. */
  function SpliceStart(length: nat, index: int): nat {
    if index < 0 then (if length + index < 0 then 0 else length + index)
    else if index > length then length else index
  }

  function RemoveAt<T>(s: seq<T>, index: int): seq<T> {
    var start := SpliceStart(|s|, index);
    if start < |s| then s[..start] + s[start + 1..] else s
  }

  /** Removing at a valid index drops exactly that element and keeps the
      others in order; an index past the end changes nothing. */
  lemma RemoveAtRemovesExactly<T>(s: seq<T>, index: int)
    ensures 0 <= index < |s| ==>
              && |RemoveAt(s, index)| == |s| - 1
              && (forall k :: 0 <= k < index ==> RemoveAt(s, index)[k] == s[k])
              && (forall k :: index <= k < |s| - 1 ==> RemoveAt(s, index)[k] == s[k + 1])
              && multiset(RemoveAt(s, index)) + multiset{s[index]} == multiset(s)
    ensures index >= |s| ==> RemoveAt(s, index) == s
    ensures -|s| <= index < 0 ==> RemoveAt(s, index) == RemoveAt(s, |s| + index)
  {
    if 0 <= index < |s| {
      assert s == s[..index] + [s[index]] + s[index + 1..];
      assert multiset(s) == multiset(s[..index]) + multiset{s[index]} + multiset(s[index + 1..]);
    }
  }

  /** `addReminder` accepts a text that is not blank and a percentage strictly
      between 0 and 100; `percentage` is absent when the field does not parse
      as a number. */
  predicate ReminderAccepted(rawText: string, percentage: Option<int>) {
    Trim(rawText) != [] && percentage.Some? && 0 < percentage.value < 100
  }

  function RemindersAfterAdd(reminders: seq<Reminder>, rawText: string, percentage: Option<int>): seq<Reminder> {
    if ReminderAccepted(rawText, percentage) then reminders + [Reminder(Trim(rawText), percentage.value)]
    else reminders
  }

  /** Every stored reminder has a text that is not blank and does not start
      with white space, and a percentage strictly between 0 and 100. */
  predicate ValidReminders(reminders: seq<Reminder>) {
    forall i :: 0 <= i < |reminders| ==>
      && reminders[i].text != [] && !IsJsWhitespace(reminders[i].text[0])
      && 0 < reminders[i].percentage < 100
  }

  /** A reminder is appended exactly when the input is accepted, the existing
      ones are kept in order, and only valid reminders are ever stored. */
  lemma AddReminderAppendsOnlyValid(reminders: seq<Reminder>, rawText: string, percentage: Option<int>)
    ensures var r := RemindersAfterAdd(reminders, rawText, percentage);
            && r[..|reminders|] == reminders
            && (|r| == |reminders| + 1 <==> Trim(rawText) != [] && percentage.Some? && 0 < percentage.value < 100)
            && (|r| != |reminders| + 1 ==> r == reminders)
            && (ValidReminders(reminders) ==> ValidReminders(r))
  {
    var r := RemindersAfterAdd(reminders, rawText, percentage);
    if ReminderAccepted(rawText, percentage) {
      var added := Reminder(Trim(rawText), percentage.value);
      assert r == reminders + [added];
      assert r[..|reminders|] == reminders;
      assert !IsJsWhitespace(added.text[0]) by {
        TrimEmptyIffBlank(rawText);
      }
    } else {
      assert r == reminders;
    }
  }

  /** `removeReminder` and `removeCategory` leave valid reminders valid. */
  lemma RemoveReminderKeepsValid(reminders: seq<Reminder>, index: int)
    requires ValidReminders(reminders)
    ensures ValidReminders(RemoveAt(reminders, index))
  {
    var start := SpliceStart(|reminders|, index);
    if start < |reminders| {
      RemoveAtRemovesExactly(reminders, start);
    }
  }

  datatype Category = Category(name: string, suggestedLimit: int)

  /** The categories every install starts with; they cannot be removed. */
  const PresetCategories: seq<Category> := [
    Category("Social Media", 30),
    Category("Video Streaming", 60),
    Category("Gaming", 60),
    Category("News", 30),
    Category("Productivity", 120),
    Category("Education", 90),
    Category("Shopping", 30),
    Category("Other", 60)
  ]

  predicate UniqueNames(categories: seq<Category>) {
    forall i, j :: 0 <= i < j < |categories| ==> categories[i].name != categories[j].name
  }

  lemma PresetNamesUnique()
    ensures |PresetCategories| == 8
    ensures UniqueNames(PresetCategories)
  {
    var names := seq(8, i requires 0 <= i < 8 => PresetCategories[i].name);
    assert names[0][0] == 'S' && names[1][0] == 'V' && names[2][0] == 'G' && names[3][0] == 'N';
    assert names[4][0] == 'P' && names[5][0] == 'E' && names[6] != names[0] && names[7][0] == 'O';
  }

  predicate HasCategory(categories: seq<Category>, name: string) {
    exists i :: 0 <= i < |categories| && categories[i].name == name
  }

  /** `addCategory`: a name that is not blank, a positive limit (absent when
      it does not parse) and a name not yet in the list. */
  function CategoriesAfterAdd(categories: seq<Category>, rawName: string, limit: Option<int>): seq<Category> {
    var name := Trim(rawName);
    if name != [] && limit.Some? && limit.value > 0 && !HasCategory(categories, name) then
      categories + [Category(name, limit.value)]
    else categories
  }

  /** A category is appended exactly when its trimmed name is not blank and
      not taken and its limit is positive, so names stay unique. */
  lemma AddCategoryKeepsNamesUnique(categories: seq<Category>, rawName: string, limit: Option<int>)
    ensures var r := CategoriesAfterAdd(categories, rawName, limit);
            && r[..|categories|] == categories
            && (|r| == |categories| + 1 <==>
                  Trim(rawName) != [] && limit.Some? && limit.value > 0
                  && (forall i :: 0 <= i < |categories| ==> categories[i].name != Trim(rawName)))
            && (|r| != |categories| + 1 ==> r == categories)
            && (UniqueNames(categories) ==> UniqueNames(r))
  {
  }

  /** `removeCategory`: only an index past the presets is spliced out. */
  function CategoriesAfterRemove(categories: seq<Category>, index: int): seq<Category> {
    if index >= |PresetCategories| then RemoveAt(categories, index) else categories
  }

  /** Removing a category never touches the presets' positions, removes at
      most one entry, and keeps names unique. */
  lemma RemoveCategoryKeepsPresets(categories: seq<Category>, index: int)
    ensures var r := CategoriesAfterRemove(categories, index);
            && (index < |PresetCategories| ==> r == categories)
            && (|categories| >= |PresetCategories| ==> |r| >= |PresetCategories| && r[..|PresetCategories|] == categories[..|PresetCategories|])
            && (|PresetCategories| <= index < |categories| ==> |r| == |categories| - 1)
            && (UniqueNames(categories) ==> UniqueNames(r))
  {
    if |PresetCategories| <= index < |categories| {
      RemoveAtRemovesExactly(categories, index);
      var r := CategoriesAfterRemove(categories, index);
      if UniqueNames(categories) {
        forall i, j | 0 <= i < j < |r|
          ensures r[i].name != r[j].name
        {
          var i0 := if i < index then i else i + 1;
          var j0 := if j < index then j else j + 1;
          assert r[i] == categories[i0] && r[j] == categories[j0];
        }
      }
    }
  }

  // ---------------------------------------------------------------------------
  // Site records in local storage

  /** The popup's `rerunTracking`: the record is tracked again from time 0 and
      every other field is kept; without a record, reading it throws and
      nothing is stored. */
  function RerunRecord(records: map<string, SiteRecord>, hostname: string): map<string, SiteRecord> {
    if hostname !in records then records
    else records[hostname := records[hostname].(isTracking := Some(true), time := Some(0))]
  }

  /** Rerunning twice is rerunning once, other sites are untouched, and the
      background's own rerun resets everything the popup's does: applied
      after the popup's, it gives the same record as applied alone. */
  lemma RerunRecordResetsTimeOnly(records: map<string, SiteRecord>, hostname: string, preserveSettings: bool)
    ensures var r := RerunRecord(records, hostname);
            && RerunRecord(r, hostname) == r
            && r.Keys == records.Keys
            && (forall h :: h in records && h != hostname ==> r[h] == records[h])
            && (hostname in records ==>
                  && r[hostname].time == Some(0) && r[hostname].isTracking == Some(true)
                  && r[hostname].isPaused == records[hostname].isPaused
                  && r[hostname].initialLimit == records[hostname].initialLimit
                  && r[hostname].totalExtendedTime == records[hostname].totalExtendedTime
                  && BackgroundSpec.RerunRecord(r[hostname], preserveSettings)
                     == BackgroundSpec.RerunRecord(records[hostname], preserveSettings))
  {
  }

  // ---------------------------------------------------------------------------
  // Check-all toggle

  /** The boxes after `toggleCheckAll`: all unchecked when all were checked,
      otherwise all checked. */
  function Toggled(boxes: seq<bool>): seq<bool> {
    var allChecked := forall i :: 0 <= i < |boxes| ==> boxes[i];
    seq(|boxes|, _ => !allChecked)
  }

  /** After a toggle all boxes agree, and a second toggle flips them all. */
  lemma ToggleAlternates(boxes: seq<bool>)
    ensures forall i, j :: 0 <= i < j < |boxes| ==> Toggled(boxes)[i] == Toggled(boxes)[j]
    ensures boxes != [] ==> forall i :: 0 <= i < |boxes| ==> Toggled(Toggled(boxes))[i] == !Toggled(boxes)[i]
  {
  }

  /** `Array.from(checkboxes).every(cb => cb.checked)`. */
  method AllChecked(boxes: array<bool>) returns (r: bool)
    ensures r <==> forall i :: 0 <= i < boxes.Length ==> boxes[i]
  {
    var i := 0;
    while i < boxes.Length
      invariant 0 <= i <= boxes.Length
      invariant forall k :: 0 <= k < i ==> boxes[k]
    {
      if !boxes[i] {
        return false;
      }
      i := i + 1;
    }
    return true;
  }

  /** `toggleCheckAll`: set every box and return the button's new label. */
  method ToggleCheckAll(boxes: array<bool>) returns (buttonText: string)
    modifies boxes
    ensures boxes[..] == Toggled(old(boxes[..]))
    ensures buttonText == if forall i :: 0 <= i < boxes.Length ==> old(boxes[i]) then "Check All" else "Uncheck All"
  {
    var areAllChecked := AllChecked(boxes);
    ghost var before := boxes[..];
    var i := 0;
    while i < boxes.Length
      invariant 0 <= i <= boxes.Length
      invariant forall k :: 0 <= k < i ==> boxes[k] == !areAllChecked
      invariant forall k :: i <= k < boxes.Length ==> boxes[k] == before[k]
    {
      boxes[i] := !areAllChecked;
      i := i + 1;
    }
    buttonText := if areAllChecked then "Check All" else "Uncheck All";
  }

  // ---------------------------------------------------------------------------
  // The popup's storage

  /** What the popup reads and writes: the reminder and category lists in
      synced storage (an absent list reads as empty) and the site records in
      local storage. */
  class Settings {
    var reminders: seq<Reminder>
    var categories: seq<Category>
    var records: map<string, SiteRecord>

    constructor (reminders0: seq<Reminder>, categories0: seq<Category>, records0: map<string, SiteRecord>)
      ensures reminders == reminders0 && categories == categories0 && records == records0
    {
      reminders := reminders0;
      categories := categories0;
      records := records0;
    }

    method AddReminder(rawText: string, percentage: Option<int>)
      modifies this
      ensures reminders == RemindersAfterAdd(old(reminders), rawText, percentage)
      ensures categories == old(categories) && records == old(records)
    {
      var text := Trim(rawText);
      if text != [] && percentage.Some? && percentage.value > 0 && percentage.value < 100 {
        reminders := reminders + [Reminder(text, percentage.value)];
      }
    }

    method RemoveReminder(index: int)
      modifies this
      ensures reminders == RemoveAt(old(reminders), index)
      ensures categories == old(categories) && records == old(records)
    {
      reminders := RemoveAt(reminders, index);
    }

    method AddCategory(rawName: string, limit: Option<int>)
      modifies this
      ensures categories == CategoriesAfterAdd(old(categories), rawName, limit)
      ensures reminders == old(reminders) && records == old(records)
    {
      var name := Trim(rawName);
      if name != [] && limit.Some? && limit.value > 0 {
        var i := 0;
        while i < |categories|
          invariant 0 <= i <= |categories|
          invariant forall k :: 0 <= k < i ==> categories[k].name != name
        {
          if categories[i].name == name {
            return;
          }
          i := i + 1;
        }
        categories := categories + [Category(name, limit.value)];
      }
    }

    method RemoveCategory(index: int)
      modifies this
      ensures categories == CategoriesAfterRemove(old(categories), index)
      ensures reminders == old(reminders) && records == old(records)
    {
      if index >= |PresetCategories| {
        categories := RemoveAt(categories, index);
      }
    }

    method RerunTracking(hostname: string)
      modifies this
      ensures records == RerunRecord(old(records), hostname)
      ensures reminders == old(reminders) && categories == old(categories)
    {
      if hostname !in records {
        return;
      }
      var siteData := records[hostname];
      siteData := siteData.(isTracking := Some(true));
      siteData := siteData.(time := Some(0));
      records := records[hostname := siteData];
    }
  }
}
