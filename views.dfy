/** The client's in-place sorts and the views built from the sorted lists: the reminder cards, the
    five most recent activity items and the five nearest deadlines. */
module Views {
  import opened Text
  import opened Dates
  import opened Records
  import opened Display

  /** `s` is in ascending order of `key`. */
  ghost predicate SortedBy<T>(s: seq<T>, key: T -> int) {
    forall i, j :: 0 <= i < j < |s| ==> key(s[i]) <= key(s[j])
  }

  /** Exchanges two neighbours. */
  method SwapDown<T>(a: array<T>, j: int)
    requires 0 < j < a.Length
    modifies a
    ensures a[j - 1] == old(a[j]) && a[j] == old(a[j - 1])
    ensures forall k :: 0 <= k < a.Length && k != j - 1 && k != j ==> a[k] == old(a[k])
    ensures multiset(a[..]) == multiset(old(a[..]))
  {
    a[j - 1], a[j] := a[j], a[j - 1];
  }

  /** Moves `a[i]` down into the sorted prefix `a[..i]`, so that `a[..i + 1]` is sorted. */
  method InsertDown<T>(a: array<T>, key: T -> int, i: int)
    requires 0 <= i < a.Length
    requires forall p, q :: 0 <= p < q < i ==> key(a[p]) <= key(a[q])
    modifies a
    ensures forall p, q :: 0 <= p < q <= i ==> key(a[p]) <= key(a[q])
    ensures multiset(a[..]) == multiset(old(a[..]))
  {
    var j := i;
    while j > 0 && key(a[j - 1]) > key(a[j])
      invariant 0 <= j <= i
      invariant forall p, q :: 0 <= p < q <= i && p != j && q != j ==> key(a[p]) <= key(a[q])
      invariant forall q :: j < q <= i ==> key(a[j]) <= key(a[q])
      invariant multiset(a[..]) == multiset(old(a[..]))
    {
      SwapDown(a, j);
      j := j - 1;
    }
  }

  /** `a.sort((x, y) => key(x) - key(y))`: sorts `a` in place, ascending by `key`, keeping every
      element. */
  method SortByKey<T>(a: array<T>, key: T -> int)
    modifies a
    ensures SortedBy(a[..], key)
    ensures multiset(a[..]) == multiset(old(a[..]))
  {
    var i := 0;
    while i < a.Length
      invariant 0 <= i <= a.Length
      invariant forall p, q :: 0 <= p < q < i ==> key(a[p]) <= key(a[q])
      invariant multiset(a[..]) == multiset(old(a[..]))
    {
      InsertDown(a, key, i);
      i := i + 1;
    }
  }

  /** The number of items the dashboard lists show: `list.slice(0, 5)`. */
  const SHOWN: nat := 5

  function Shown(n: nat): nat {
    if n < SHOWN then n else SHOWN
  }

  // ---------------------------------------------------------------------------------------------
  // Reminders

  datatype ReminderCard = ReminderCard(courseCode: string, message: string, daysUntil: string)

  function ReminderCardOf(r: ReminderEntry, names: map<int, string>, now: int): ReminderCard {
    ReminderCard(CourseCode(SubjectLabel(names, r.subjectId), r.subjectId), r.message, DaysUntil(r.remindAt, now))
  }

  /** The sort key of a reminder: its time value; an unparsable date, which JavaScript's comparator
      leaves unordered, is given 0 here. */
  function RemindAtKey(r: ReminderEntry): int {
    if r.remindAt.At? then r.remindAt.ms else 0
  }

  /** `renderReminders`: an empty list shows the empty state and is left as it is; otherwise the
      fetched list itself is reordered, earliest `remind_at` first when every date parses, and the
      cards follow that order. */
  method RenderReminders(reminders: array<ReminderEntry>, subjects: seq<Subject>, now: int)
    returns (v: View<ReminderCard>)
    modifies reminders
    ensures v.EmptyState? <==> reminders.Length == 0
    ensures multiset(reminders[..]) == multiset(old(reminders[..]))
    ensures (forall i :: 0 <= i < reminders.Length ==> reminders[i].remindAt.At?) ==>
              forall i, j :: 0 <= i < j < reminders.Length ==> reminders[i].remindAt.ms <= reminders[j].remindAt.ms
    ensures v.Cards? ==> |v.items| == reminders.Length
    ensures v.Cards? ==> forall i :: 0 <= i < reminders.Length ==>
              v.items[i] == ReminderCardOf(reminders[i], NameMap(subjects), now)
  {
    if reminders.Length == 0 {
      return EmptyState;
    }
    var names := BuildNameMap(subjects);
    SortByKey(reminders, RemindAtKey);
    assert forall i, j :: 0 <= i < j < reminders.Length ==> RemindAtKey(reminders[..][i]) <= RemindAtKey(reminders[..][j]);
    v := Cards(seq(reminders.Length, i requires 0 <= i < reminders.Length reads reminders =>
      ReminderCardOf(reminders[i], names, now)));
  }

  // ---------------------------------------------------------------------------------------------
  // Latest activity

  /** An item of the latest-activity feed as the client uses it. */
  datatype FeedEntry = FeedEntry(kind: string, title: string, datePosted: int)

  datatype ActivityItem = ActivityItem(isAnnouncement: bool, title: string, ago: string)

  function ActivityItemOf(e: FeedEntry, now: int): ActivityItem {
    ActivityItem(e.kind == "announcement", e.title, TimeAgo(At(e.datePosted), now))
  }

  /** Sorting by this key ascending sorts by `date_posted` descending. */
  function RecentFirstKey(e: FeedEntry): int {
    -e.datePosted
  }

  /** `loadLatestActivity` after the fetch: the fetched feed is sorted in place, most recent first,
      and the first five items are shown; an empty feed shows the empty state. */
  method LatestActivity(feed: array<FeedEntry>, now: int) returns (v: View<ActivityItem>)
    modifies feed
    ensures multiset(feed[..]) == multiset(old(feed[..]))
    ensures forall i, j :: 0 <= i < j < feed.Length ==> feed[i].datePosted >= feed[j].datePosted
    ensures v.EmptyState? <==> feed.Length == 0
    ensures v.Cards? ==> |v.items| == Shown(feed.Length)
    ensures v.Cards? ==> forall i :: 0 <= i < |v.items| ==> v.items[i] == ActivityItemOf(feed[i], now)
  {
    SortByKey(feed, RecentFirstKey);
    assert forall i, j :: 0 <= i < j < feed.Length ==> RecentFirstKey(feed[..][i]) <= RecentFirstKey(feed[..][j]);
    if feed.Length == 0 {
      return EmptyState;
    }
    var n := Shown(feed.Length);
    v := Cards(seq(n, i requires 0 <= i < n reads feed => ActivityItemOf(feed[i], now)));
  }

  // ---------------------------------------------------------------------------------------------
  // Upcoming deadlines

  /** An item of the upcoming-deadlines feed as the client uses it. */
  datatype DeadlineEntry = DeadlineEntry(kind: string, title: string, due: int)

  datatype DeadlineItem = DeadlineItem(isAssignment: bool, title: string, daysLeft: string)

  function DeadlineItemOf(e: DeadlineEntry, now: int): DeadlineItem {
    DeadlineItem(e.kind == "assignment", e.title, DaysUntil(At(e.due), now))
  }

  function DueKey(e: DeadlineEntry): int {
    e.due
  }

  /** `loadUpcomingDeadlines` after the fetch: the fetched list is sorted in place, earliest due
      first; the count label reports the whole list while at most five items are shown. */
  method UpcomingDeadlines(deadlines: array<DeadlineEntry>, now: int) returns (countLabel: string, v: View<DeadlineItem>)
    modifies deadlines
    ensures multiset(deadlines[..]) == multiset(old(deadlines[..]))
    ensures forall i, j :: 0 <= i < j < deadlines.Length ==> deadlines[i].due <= deadlines[j].due
    ensures countLabel == NatToString(deadlines.Length) + " Active"
    ensures v.EmptyState? <==> deadlines.Length == 0
    ensures v.Cards? ==> |v.items| == Shown(deadlines.Length)
    ensures v.Cards? ==> forall i :: 0 <= i < |v.items| ==> v.items[i] == DeadlineItemOf(deadlines[i], now)
  {
    SortByKey(deadlines, DueKey);
    assert forall i, j :: 0 <= i < j < deadlines.Length ==> DueKey(deadlines[..][i]) <= DueKey(deadlines[..][j]);
    countLabel := NatToString(deadlines.Length) + " Active";
    if deadlines.Length == 0 {
      return countLabel, EmptyState;
    }
    var n := Shown(deadlines.Length);
    v := Cards(seq(n, i requires 0 <= i < n reads deadlines => DeadlineItemOf(deadlines[i], now)));
  }
}
