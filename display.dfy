/** Display values the dashboard client derives from fetched records: subject labels and course
    codes, material file types and sizes, assignment priorities, and the summary counters. */
module Display {
  import opened Wrappers
  import opened Text
  import opened Dates
  import opened Records

  /** A list rendered into a container: the per-kind empty-state fragment, or one card per record. */
  datatype View<T> = EmptyState | Cards(items: seq<T>)

  // ---------------------------------------------------------------------------------------------
  // Counting

  /** `xs.filter(p).length`: never more than the list holds, and zero exactly when no element
      passes the filter. */
  function CountWhere<T>(xs: seq<T>, p: T -> bool): (n: nat)
    ensures n <= |xs|
    ensures n == 0 <==> forall i :: 0 <= i < |xs| ==> !p(xs[i])
  {
    if xs == [] then 0
    else
      var rest := CountWhere(xs[1..], p);
      assert forall i :: 1 <= i < |xs| ==> xs[i] == xs[1..][i - 1];
      (if p(xs[0]) then 1 else 0) + rest
  }

  /** A filter that lets through at least the elements another one does counts at least as many. */
  lemma {:induction false} CountWhereMono<T>(xs: seq<T>, p: T -> bool, q: T -> bool)
    requires forall i :: 0 <= i < |xs| && p(xs[i]) ==> q(xs[i])
    ensures CountWhere(xs, p) <= CountWhere(xs, q)
  {
    if xs != [] {
      assert forall i :: 0 <= i < |xs[1..]| ==> xs[1..][i] == xs[i + 1];
      CountWhereMono(xs[1..], p, q);
    }
  }

  // ---------------------------------------------------------------------------------------------
  // Subject labels and course codes

  /** What `subjects.forEach(s => subjectMap[s.id] = s.name)` leaves in the map: a later entry with
      the same id overwrites an earlier one. */
  function NameMap(subjects: seq<Subject>): map<int, string>
  {
    if subjects == [] then map[]
    else
      var last := subjects[|subjects| - 1];
      NameMap(subjects[..|subjects| - 1])[last.id := last.name]
  }

  /** An id is in the name map exactly when some cached subject has it, and then it maps to the
      name of the last such subject. */
  lemma {:induction false} NameMapLastWins(subjects: seq<Subject>, id: int)
    ensures id !in NameMap(subjects) <==> forall k :: 0 <= k < |subjects| ==> subjects[k].id != id
    ensures forall k :: 0 <= k < |subjects| && subjects[k].id == id && (forall j :: k < j < |subjects| ==> subjects[j].id != id)
              ==> id in NameMap(subjects) && NameMap(subjects)[id] == subjects[k].name
  {
    if subjects != [] {
      var init := subjects[..|subjects| - 1];
      assert forall k :: 0 <= k < |init| ==> init[k] == subjects[k];
      NameMapLastWins(init, id);
    }
  }

  /** The `forEach` loop that fills the name map. */
  method BuildNameMap(subjects: seq<Subject>) returns (names: map<int, string>)
    ensures names == NameMap(subjects)
  {
    names := map[];
    var i := 0;
    while i < |subjects|
      invariant 0 <= i <= |subjects|
      invariant names == NameMap(subjects[..i])
    {
      assert subjects[..i + 1][..i] == subjects[..i];
      names := names[subjects[i].id := subjects[i].name];
      i := i + 1;
    }
    assert subjects[..i] == subjects;
  }

  /** `subjectMap[id] || `Subject ${id}``: the cached name, or a placeholder when the id is not
      cached or its name is empty. */
  function SubjectLabel(names: map<int, string>, id: int): (shown: string)
    ensures shown != ""
  {
    if id in names && names[id] != "" then names[id] else "Subject " + IntToString(id)
  }

  /** The label of a cached id is the name of the last cached subject with that id, unless that
      name is empty. */
  lemma SubjectLabelFromCache(subjects: seq<Subject>, id: int, k: int)
    requires 0 <= k < |subjects| && subjects[k].id == id
    requires forall j :: k < j < |subjects| ==> subjects[j].id != id
    ensures SubjectLabel(NameMap(subjects), id)
         == if subjects[k].name != "" then subjects[k].name else "Subject " + IntToString(id)
  {
    NameMapLastWins(subjects, id);
  }

  /** A subject id that is not cached (for instance one deleted since) gets the placeholder. */
  lemma SubjectLabelFallback(subjects: seq<Subject>, id: int)
    requires forall k :: 0 <= k < |subjects| ==> subjects[k].id != id
    ensures SubjectLabel(NameMap(subjects), id) == "Subject " + IntToString(id)
  {
    NameMapLastWins(subjects, id);
  }

  /** `name.split(' ').map(w => w[0]).join('').toUpperCase() + '-' + (100 + id)`. */
  function CourseCode(name: string, id: int): string {
    ToUpper(FirstChars(Split(name))) + "-" + IntToString(100 + id)
  }

  /** The course code is the upper-cased first letters of the words of the label, where runs of
      spaces contribute nothing, then a dash and 100 + id. */
  lemma CourseCodeFromWordStarts(name: string, id: int)
    ensures CourseCode(name, id) == ToUpper(WordStarts(name, true)) + "-" + IntToString(100 + id)
  {
    FirstCharsOfSplit(name);
  }

  datatype SubjectCard = SubjectCard(courseCode: string, name: string, teacher: string)

  /** `renderSubjects`: the course code of a subject card is built from the subject's own name. */
  function RenderSubjects(subjects: seq<Subject>): (v: View<SubjectCard>)
    ensures v.EmptyState? <==> |subjects| == 0
    ensures v.Cards? ==> |v.items| == |subjects|
    ensures v.Cards? ==> forall i :: 0 <= i < |subjects| ==>
      v.items[i].name == subjects[i].name && v.items[i].teacher == subjects[i].teacher &&
      v.items[i].courseCode == CourseCode(subjects[i].name, subjects[i].id)
  {
    if |subjects| == 0 then EmptyState
    else Cards(seq(|subjects|, i requires 0 <= i < |subjects| =>
      SubjectCard(CourseCode(subjects[i].name, subjects[i].id), subjects[i].name, subjects[i].teacher)))
  }

  datatype AnnouncementCard = AnnouncementCard(courseCode: string, title: string, content: string)

  /** `renderAnnouncements`: each card carries the course code of its subject's label. */
  function RenderAnnouncements(announcements: seq<Announcement>, subjects: seq<Subject>): (v: View<AnnouncementCard>)
    ensures v.EmptyState? <==> |announcements| == 0
    ensures v.Cards? ==> |v.items| == |announcements|
    ensures v.Cards? ==> forall i :: 0 <= i < |announcements| ==>
      v.items[i].title == announcements[i].title && v.items[i].content == announcements[i].content &&
      v.items[i].courseCode == CourseCode(SubjectLabel(NameMap(subjects), announcements[i].subjectId), announcements[i].subjectId)
  {
    if |announcements| == 0 then EmptyState
    else
      var names := NameMap(subjects);
      Cards(seq(|announcements|, i requires 0 <= i < |announcements| =>
        var a := announcements[i];
        AnnouncementCard(CourseCode(SubjectLabel(names, a.subjectId), a.subjectId), a.title, a.content)))
  }

  // ---------------------------------------------------------------------------------------------
  // Materials

  datatype FileKind = Pdf | Video

  /** A `file_url` that is truthy: present and not empty. */
  predicate HasUrl(url: Option<string>) {
    url.Some? && url.value != ""
  }

  /** The file type shown on a material card. */
  function FileType(m: Material): FileKind {
    if HasUrl(m.fileUrl) then (if Contains(m.fileUrl.value, ".pdf") then Pdf else Video) else Pdf
  }

  /** The size shown on a material card. */
  function FileSize(m: Material): (size: string)
    ensures size == "N/A" <==> !HasUrl(m.fileUrl)
    ensures HasUrl(m.fileUrl) ==> (size == "2.4 MB" <==> FileType(m) == Pdf)
    ensures HasUrl(m.fileUrl) && FileType(m) == Video ==> size == "128 MB"
  {
    if HasUrl(m.fileUrl) then (if FileType(m) == Pdf then "2.4 MB" else "128 MB") else "N/A"
  }

  function KindTag(k: FileKind): string {
    match k
    case Pdf => "PDF"
    case Video => "Video"
  }

  datatype MaterialCard = MaterialCard(tag: string, courseCode: string, size: string, title: string)

  function MaterialCardOf(m: Material, names: map<int, string>): MaterialCard {
    MaterialCard(KindTag(FileType(m)), CourseCode(SubjectLabel(names, m.subjectId), m.subjectId), FileSize(m), m.title)
  }

  /** `renderMaterials`. */
  function RenderMaterials(materials: seq<Material>, subjects: seq<Subject>): (v: View<MaterialCard>)
    ensures v.EmptyState? <==> |materials| == 0
    ensures v.Cards? ==> |v.items| == |materials|
    ensures v.Cards? ==> forall i :: 0 <= i < |materials| ==> (v.items[i].tag == "PDF" <==> FileType(materials[i]) == Pdf)
    ensures v.Cards? ==> forall i :: 0 <= i < |materials| ==>
      v.items[i].title == materials[i].title && v.items[i].size == FileSize(materials[i]) &&
      v.items[i].courseCode == CourseCode(SubjectLabel(NameMap(subjects), materials[i].subjectId), materials[i].subjectId)
  {
    if |materials| == 0 then EmptyState
    else
      var names := NameMap(subjects);
      Cards(seq(|materials|, i requires 0 <= i < |materials| => MaterialCardOf(materials[i], names)))
  }

  /** The filter of the PDF counter: no URL, or a URL containing ".pdf". */
  predicate CountedAsPdf(m: Material) {
    !HasUrl(m.fileUrl) || Contains(m.fileUrl.value, ".pdf")
  }

  datatype MaterialStats = MaterialStats(total: nat, pdfs: nat, videos: int, totalSize: string)

  /** `updateMaterialStats`: the video count is what is left after the PDFs, and the total size is a
      flat 65 MB per material. */
  function MaterialStatsOf(materials: seq<Material>): (st: MaterialStats)
    ensures st.total == |materials| && st.pdfs + st.videos == st.total && st.videos >= 0
    ensures st.totalSize == IntToString(65 * |materials|) + " MB"
  {
    var pdfs := CountWhere(materials, CountedAsPdf);
    MaterialStats(|materials|, pdfs, |materials| - pdfs, IntToString(65 * |materials|) + " MB")
  }

  /** The PDF counter agrees with the cards: it counts exactly the materials whose card shows
      "PDF", so the video counter counts exactly the cards that show "Video". */
  lemma PdfCounterMatchesCards(materials: seq<Material>)
    ensures MaterialStatsOf(materials).pdfs == CountWhere(materials, m => FileType(m) == Pdf)
    ensures MaterialStatsOf(materials).videos == CountWhere(materials, m => FileType(m) == Video)
  {
    var isPdf := (m: Material) => FileType(m) == Pdf;
    var isVideo := (m: Material) => FileType(m) == Video;
    CountWhereMono(materials, CountedAsPdf, isPdf);
    CountWhereMono(materials, isPdf, CountedAsPdf);
    CountPartition(materials, isPdf, isVideo);
  }

  /** When every element passes exactly one of two filters, their counts add up to the length. */
  lemma {:induction false} CountPartition<T>(xs: seq<T>, p: T -> bool, q: T -> bool)
    requires forall i :: 0 <= i < |xs| ==> (p(xs[i]) <==> !q(xs[i]))
    ensures CountWhere(xs, p) + CountWhere(xs, q) == |xs|
  {
    if xs != [] {
      assert forall i :: 0 <= i < |xs[1..]| ==> xs[1..][i] == xs[i + 1];
      CountPartition(xs[1..], p, q);
    }
  }

  // ---------------------------------------------------------------------------------------------
  // Assignments

  /** An assignment as the client uses it, its due date already parsed. */
  datatype AssignmentEntry = AssignmentEntry(id: int, subjectId: int, title: string, due: DateInput)

  /** The priority badge, read back from the days-left label: a label that mentions "days" and
      whose leading integer is at most 3 is urgent, at most 7 high; everything else is medium. */
  function Priority(daysLeft: string): string {
    var mentionsDays := Contains(daysLeft, "days");
    var n := ParseInt(daysLeft);
    if mentionsDays && n.Some? && n.value <= 3 then "urgent"
    else if mentionsDays && n.Some? && n.value <= 7 then "high"
    else "medium"
  }

  /** A string lacking one of the characters of `sub` does not contain `sub`. */
  lemma NotContains(s: string, sub: string, k: int)
    requires 0 <= k < |sub| && sub[k] !in s
    ensures !Contains(s, sub)
  {
  }

  /** Priority in terms of the due date: urgent exactly for 2 or 3 days left, high for 4 to 7,
      and medium for everything else, Today, Tomorrow, Overdue, a missing and an unparsable due
      date included. */
  lemma PriorityOfDueDate(due: DateInput, now: int)
    ensures Priority(DaysUntil(due, now)) == "urgent" <==> due.At? && 2 <= DaysLeft(due.ms, now) <= 3
    ensures Priority(DaysUntil(due, now)) == "high" <==> due.At? && 4 <= DaysLeft(due.ms, now) <= 7
    ensures Priority(DaysUntil(due, now)) == "medium" <==> !(due.At? && 2 <= DaysLeft(due.ms, now) <= 7)
  {
    match due
    case Missing =>
      NotContains("", "days", 0);
    case Unparsable =>
      PriorityOfNaN();
    case At(t) =>
      var days := DaysLeft(t, now);
      if days < 0 {
        NotContains("Overdue", "days", 2);
      } else if days == 0 {
        NotContains("Today", "days", 3);
      } else if days == 1 {
        NotContains("Tomorrow", "days", 0);
      } else {
        PriorityOfDayCount(days);
      }
  }

  /** An unparsable due date's label mentions "days" but has no leading number. */
  lemma PriorityOfNaN()
    ensures Priority("NaN days left") == "medium"
  {
    var shownDays := "NaN days left";
    assert shownDays[0] == 'N' && !IsSpace('N', Js) && !IsDigit('N');
    assert LeadingSpaces(shownDays, Js) == 0;
    assert TrimStart(shownDays) == shownDays;
    assert LeadingDigits(shownDays) == [];
  }

  /** A counted label is urgent up to 3 days, high up to 7 and medium beyond. */
  lemma PriorityOfDayCount(days: nat)
    ensures Priority(NatToString(days) + " days left") ==
      if days <= 3 then "urgent" else if days <= 7 then "high" else "medium"
  {
    assert OccursAt(" days left", "days", 1);
    ContainsAfterPrefix(NatToString(days), " days left", "days");
    ParseIntOfNatToString(days, " days left");
  }

  datatype AssignmentCard = AssignmentCard(courseCode: string, priority: string, daysLeft: string, title: string)

  function AssignmentCardOf(a: AssignmentEntry, names: map<int, string>, now: int): AssignmentCard {
    var daysLeft := DaysUntil(a.due, now);
    AssignmentCard(CourseCode(SubjectLabel(names, a.subjectId), a.subjectId), Priority(daysLeft), daysLeft, a.title)
  }

  /** `renderAssignments`. */
  function RenderAssignments(assignments: seq<AssignmentEntry>, subjects: seq<Subject>, now: int): (v: View<AssignmentCard>)
    ensures v.EmptyState? <==> |assignments| == 0
    ensures v.Cards? ==> |v.items| == |assignments|
    ensures v.Cards? ==> forall i :: 0 <= i < |assignments| ==>
      v.items[i].title == assignments[i].title && v.items[i].daysLeft == DaysUntil(assignments[i].due, now) &&
      v.items[i].priority == Priority(v.items[i].daysLeft) &&
      v.items[i].courseCode == CourseCode(SubjectLabel(NameMap(subjects), assignments[i].subjectId), assignments[i].subjectId)
  {
    if |assignments| == 0 then EmptyState
    else
      var names := NameMap(subjects);
      Cards(seq(|assignments|, i requires 0 <= i < |assignments| => AssignmentCardOf(assignments[i], names, now)))
  }

  /** The filter of the urgent counter: the ceiling day count is between 0 and 3. An unparsable,
      empty or absent due date is an Invalid Date, for which every comparison is false. (`null`
      would be the time value 0, but the service never sends it: the column is NOT NULL.) */
  predicate CountedUrgent(a: AssignmentEntry, now: int) {
    a.due.At? && 0 <= DaysLeft(a.due.ms, now) <= 3
  }

  /** The this-week filters of both stats blocks: from now up to seven days ahead, both ends included. */
  predicate WithinWeek(d: DateInput, now: int) {
    d.At? && now <= d.ms <= now + 7 * MS_PER_DAY
  }

  datatype AssignmentStats = AssignmentStats(total: nat, active: nat, urgent: nat, dueThisWeek: nat)

  /** `updateAssignmentStats`. */
  function AssignmentStatsOf(assignments: seq<AssignmentEntry>, now: int): (st: AssignmentStats)
    ensures st.total == st.active == |assignments|
    ensures st.urgent <= st.total && st.dueThisWeek <= st.total
  {
    AssignmentStats(|assignments|, |assignments|,
      CountWhere(assignments, (a: AssignmentEntry) => CountedUrgent(a, now)),
      CountWhere(assignments, (a: AssignmentEntry) => WithinWeek(a.due, now)))
  }

  /** Every card marked urgent is counted by the urgent counter. */
  lemma UrgentCardsAreCounted(assignments: seq<AssignmentEntry>, now: int)
    ensures CountWhere(assignments, (a: AssignmentEntry) => Priority(DaysUntil(a.due, now)) == "urgent")
         <= AssignmentStatsOf(assignments, now).urgent
  {
    forall i | 0 <= i < |assignments|
      ensures Priority(DaysUntil(assignments[i].due, now)) == "urgent" ==> CountedUrgent(assignments[i], now)
    {
      PriorityOfDueDate(assignments[i].due, now);
    }
    CountWhereMono(assignments, (a: AssignmentEntry) => Priority(DaysUntil(a.due, now)) == "urgent", (a: AssignmentEntry) => CountedUrgent(a, now));
  }

  /** The converse fails: an assignment due in an hour is counted as urgent while its card shows
      "Tomorrow" with medium priority. */
  lemma UrgentCounterIncludesTomorrow(now: int)
    ensures CountedUrgent(AssignmentEntry(1, 1, "", At(now + MS_PER_HOUR)), now)
    ensures DaysUntil(At(now + MS_PER_HOUR), now) == "Tomorrow"
    ensures Priority(DaysUntil(At(now + MS_PER_HOUR), now)) == "medium"
  {
    PriorityOfDueDate(At(now + MS_PER_HOUR), now);
  }

  // ---------------------------------------------------------------------------------------------
  // Reminders

  /** A reminder as the client uses it; `remind_at` is whatever string the service stored, as the
      client's `new Date` reads it. */
  datatype ReminderEntry = ReminderEntry(id: int, subjectId: int, message: string, remindAt: DateInput)

  datatype ReminderStats = ReminderStats(total: nat, thisWeek: nat, today: nat)

  /** `updateReminderStats`; `todayEnd` is the next local midnight. */
  function ReminderStatsOf(reminders: seq<ReminderEntry>, now: int, todayEnd: int): (st: ReminderStats)
    ensures st.total == |reminders|
    ensures st.thisWeek <= st.total && st.today <= st.total
  {
    ReminderStats(|reminders|,
      CountWhere(reminders, (r: ReminderEntry) => WithinWeek(r.remindAt, now)),
      CountWhere(reminders, (r: ReminderEntry) => r.remindAt.At? && now <= r.remindAt.ms < todayEnd))
  }

  /** Since the next midnight is less than a week away, the today counter never exceeds the
      this-week counter. */
  lemma TodayWithinThisWeek(reminders: seq<ReminderEntry>, now: int, todayEnd: int)
    requires todayEnd <= now + 7 * MS_PER_DAY
    ensures ReminderStatsOf(reminders, now, todayEnd).today <= ReminderStatsOf(reminders, now, todayEnd).thisWeek
  {
    CountWhereMono(reminders, (r: ReminderEntry) => r.remindAt.At? && now <= r.remindAt.ms < todayEnd,
      (r: ReminderEntry) => WithinWeek(r.remindAt, now));
  }

  /** Appending items none of which satisfies `p` leaves the count as it was. */
  lemma {:induction false} CountWhereAppendNone<T>(xs: seq<T>, ys: seq<T>, p: T -> bool)
    requires forall i :: 0 <= i < |ys| ==> !p(ys[i])
    ensures CountWhere(xs + ys, p) == CountWhere(xs, p)
  {
    if xs == [] {
      assert xs + ys == ys;
    } else {
      assert (xs + ys)[1..] == xs[1..] + ys;
      assert (xs + ys)[0] == xs[0];
      CountWhereAppendNone(xs[1..], ys, p);
    }
  }

  /** Reminders whose date does not parse add to the total and to neither time counter. */
  lemma UnparsableRemindersUncounted(known: seq<ReminderEntry>, unparsable: seq<ReminderEntry>, now: int, todayEnd: int)
    requires forall i :: 0 <= i < |unparsable| ==> !unparsable[i].remindAt.At?
    ensures var st := ReminderStatsOf(known, now, todayEnd);
      ReminderStatsOf(known + unparsable, now, todayEnd) == ReminderStats(|known| + |unparsable|, st.thisWeek, st.today)
  {
    CountWhereAppendNone(known, unparsable, (r: ReminderEntry) => WithinWeek(r.remindAt, now));
    CountWhereAppendNone(known, unparsable, (r: ReminderEntry) => r.remindAt.At? && now <= r.remindAt.ms < todayEnd);
  }
}
