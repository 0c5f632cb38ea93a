/** The request handlers of the StudySphere service over an in-memory store of six tables. Each
    handler takes the path id and the JSON body of the request; a timestamp the store fills in itself
    (`datetime.utcnow`) is the parameter `now`. A path id is a `nat`, since Flask's `<int:...>`
    converter matches unsigned digits only. */
module Api {
  import opened Wrappers
  import opened Text
  import opened Records
  import opened Json
  import opened Tables
  import Client
  import Views

  /** A request's JSON body: member names and their string values. */
  type Body = map<string, string>

  /** `data.get(key)`: the value, or None when the member is absent. */
  function Arg(body: Body, key: string): (r: Option<string>)
    ensures r.Some? <==> key in body
    ensures r.Some? ==> r.value == body[key]
  {
    if key in body then Some(body[key]) else None
  }

  /** What a reply carries: a JSON document, nothing (the empty 204 body), or the server's error
      page for an uncaught exception. */
  datatype Payload = JsonBody(value: Json) | NoContent | ErrorPage

  datatype Reply = Reply(status: int, payload: Payload)

  function ErrorReply(status: int, message: string): Reply {
    Reply(status, JsonBody(JObj([("error", JStr(message))])))
  }

  /** A `KeyError` on a required body member: the handler stops before committing. */
  const SERVER_ERROR := Reply(500, ErrorPage)

  const SUBJECT_NOT_FOUND := "Subject not found"
  const NOT_FOUND := "Not found"
  const FIELDS_REQUIRED := "Both 'name' and 'teacher' are required and cannot be empty"
  const PREVIEW_LENGTH: nat := 80

  function SubjectId(s: Subject): int { s.id }
  function AnnouncementId(a: Announcement): int { a.id }
  function CommentId(c: Comment): int { c.id }
  function MaterialId(m: Material): int { m.id }
  function AssignmentId(a: Assignment): int { a.id }
  function ReminderId(r: Reminder): int { r.id }

  // ---------------------------------------------------------------------------------------------
  // to_dict and the client's reading of it

  function SubjectDict(s: Subject): Json {
    JObj([("id", JNum(s.id)), ("name", JStr(s.name)), ("teacher", JStr(s.teacher))])
  }

  function AnnouncementDict(a: Announcement): Json {
    JObj([("id", JNum(a.id)), ("subject_id", JNum(a.subjectId)), ("title", JStr(a.title)),
          ("content", JStr(a.content)), ("date_posted", JTime(a.datePosted))])
  }

  function CommentDict(c: Comment): Json {
    JObj([("id", JNum(c.id)), ("announcement_id", JNum(c.announcementId)), ("user", JStr(c.user)),
          ("content", JStr(c.content)), ("date_posted", JTime(c.datePosted))])
  }

  function MaterialDict(m: Material): Json {
    JObj([("id", JNum(m.id)), ("subject_id", JNum(m.subjectId)), ("title", JStr(m.title)),
          ("description", NullableStr(m.description)), ("file_url", NullableStr(m.fileUrl)),
          ("date_uploaded", JTime(m.dateUploaded))])
  }

  function AssignmentDict(a: Assignment): Json {
    JObj([("id", JNum(a.id)), ("subject_id", JNum(a.subjectId)), ("title", JStr(a.title)),
          ("instructions", NullableStr(a.instructions)), ("due_date", JStr(a.dueDate))])
  }

  function ReminderDict(r: Reminder): Json {
    JObj([("id", JNum(r.id)), ("subject_id", JNum(r.subjectId)), ("message", JStr(r.message)),
          ("remind_at", JStr(r.remindAt))])
  }

  function AsNum(j: Option<Json>): Option<int> {
    if j.Some? && j.value.JNum? then Some(j.value.n) else None
  }

  function AsStr(j: Option<Json>): Option<string> {
    if j.Some? && j.value.JStr? then Some(j.value.s) else None
  }

  function AsTime(j: Option<Json>): Option<int> {
    if j.Some? && j.value.JTime? then Some(j.value.ms) else None
  }

  /** A nullable text member: `Some(None)` for `null`. */
  function AsNullableStr(j: Option<Json>): Option<Option<string>> {
    if j.Some? && j.value.JNull? then Some(None)
    else if j.Some? && j.value.JStr? then Some(Some(j.value.s))
    else None
  }

  function SubjectOfDict(j: Json): Option<Subject> {
    var id := AsNum(Field(j, "id"));
    var name := AsStr(Field(j, "name"));
    var teacher := AsStr(Field(j, "teacher"));
    if id.Some? && name.Some? && teacher.Some? then Some(Subject(id.value, name.value, teacher.value)) else None
  }

  function AnnouncementOfDict(j: Json): Option<Announcement> {
    var id := AsNum(Field(j, "id"));
    var subjectId := AsNum(Field(j, "subject_id"));
    var title := AsStr(Field(j, "title"));
    var content := AsStr(Field(j, "content"));
    var posted := AsTime(Field(j, "date_posted"));
    if id.Some? && subjectId.Some? && title.Some? && content.Some? && posted.Some?
    then Some(Announcement(id.value, subjectId.value, title.value, content.value, posted.value))
    else None
  }

  function CommentOfDict(j: Json): Option<Comment> {
    var id := AsNum(Field(j, "id"));
    var announcementId := AsNum(Field(j, "announcement_id"));
    var user := AsStr(Field(j, "user"));
    var content := AsStr(Field(j, "content"));
    var posted := AsTime(Field(j, "date_posted"));
    if id.Some? && announcementId.Some? && user.Some? && content.Some? && posted.Some?
    then Some(Comment(id.value, announcementId.value, user.value, content.value, posted.value))
    else None
  }

  function MaterialOfDict(j: Json): Option<Material> {
    var id := AsNum(Field(j, "id"));
    var subjectId := AsNum(Field(j, "subject_id"));
    var title := AsStr(Field(j, "title"));
    var description := AsNullableStr(Field(j, "description"));
    var fileUrl := AsNullableStr(Field(j, "file_url"));
    var uploaded := AsTime(Field(j, "date_uploaded"));
    if id.Some? && subjectId.Some? && title.Some? && description.Some? && fileUrl.Some? && uploaded.Some?
    then Some(Material(id.value, subjectId.value, title.value, description.value, fileUrl.value, uploaded.value))
    else None
  }

  function AssignmentOfDict(j: Json): Option<Assignment> {
    var id := AsNum(Field(j, "id"));
    var subjectId := AsNum(Field(j, "subject_id"));
    var title := AsStr(Field(j, "title"));
    var instructions := AsNullableStr(Field(j, "instructions"));
    var due := AsStr(Field(j, "due_date"));
    if id.Some? && subjectId.Some? && title.Some? && instructions.Some? && due.Some?
    then Some(Assignment(id.value, subjectId.value, title.value, instructions.value, due.value))
    else None
  }

  function ReminderOfDict(j: Json): Option<Reminder> {
    var id := AsNum(Field(j, "id"));
    var subjectId := AsNum(Field(j, "subject_id"));
    var message := AsStr(Field(j, "message"));
    var remindAt := AsStr(Field(j, "remind_at"));
    if id.Some? && subjectId.Some? && message.Some? && remindAt.Some?
    then Some(Reminder(id.value, subjectId.value, message.value, remindAt.value))
    else None
  }

  /** Every `to_dict` carries every column under its own name: reading the members back gives the
      record. */
  lemma SubjectDictRoundTrip(s: Subject)
    ensures SubjectOfDict(SubjectDict(s)) == Some(s)
  {
    var f := SubjectDict(s).fields;
    LookupAt(f, 0, "id");
    LookupAt(f, 1, "name");
    LookupAt(f, 2, "teacher");
  }

  lemma AnnouncementDictRoundTrip(a: Announcement)
    ensures AnnouncementOfDict(AnnouncementDict(a)) == Some(a)
  {
    var j := AnnouncementDict(a);
    LookupAt(j.fields, 0, "id");
    assert Field(j, "id") == Some(JNum(a.id));
    LookupAt(j.fields, 1, "subject_id");
    assert Field(j, "subject_id") == Some(JNum(a.subjectId));
    LookupAt(j.fields, 2, "title");
    assert Field(j, "title") == Some(JStr(a.title));
    LookupAt(j.fields, 3, "content");
    assert Field(j, "content") == Some(JStr(a.content));
    LookupAt(j.fields, 4, "date_posted");
    assert Field(j, "date_posted") == Some(JTime(a.datePosted));
  }

  lemma CommentDictRoundTrip(c: Comment)
    ensures CommentOfDict(CommentDict(c)) == Some(c)
  {
    var f := CommentDict(c).fields;
    LookupAt(f, 0, "id");
    LookupAt(f, 1, "announcement_id");
    LookupAt(f, 2, "user");
    LookupAt(f, 3, "content");
    LookupAt(f, 4, "date_posted");
  }

  lemma MaterialDictRoundTrip(m: Material)
    ensures MaterialOfDict(MaterialDict(m)) == Some(m)
  {
    var f := MaterialDict(m).fields;
    LookupAt(f, 0, "id");
    LookupAt(f, 1, "subject_id");
    LookupAt(f, 2, "title");
    LookupAt(f, 3, "description");
    LookupAt(f, 4, "file_url");
    LookupAt(f, 5, "date_uploaded");
  }

  lemma AssignmentDictRoundTrip(a: Assignment)
    ensures AssignmentOfDict(AssignmentDict(a)) == Some(a)
  {
    var f := AssignmentDict(a).fields;
    LookupAt(f, 0, "id");
    LookupAt(f, 1, "subject_id");
    LookupAt(f, 2, "title");
    LookupAt(f, 3, "instructions");
    LookupAt(f, 4, "due_date");
  }

  lemma ReminderDictRoundTrip(r: Reminder)
    ensures ReminderOfDict(ReminderDict(r)) == Some(r)
  {
    var f := ReminderDict(r).fields;
    LookupAt(f, 0, "id");
    LookupAt(f, 1, "subject_id");
    LookupAt(f, 2, "message");
    LookupAt(f, 3, "remind_at");
  }

  // ---------------------------------------------------------------------------------------------
  // Subject validation

  /** The name and teacher `create_subject` stores: each member (empty when absent) stripped of
      surrounding whitespace by Python's `strip`; None when either is then empty. */
  function SubjectFields(body: Body): (r: Option<(string, string)>)
    ensures r.None? <==> AllSpace(Arg(body, "name").GetOr(""), Py) || AllSpace(Arg(body, "teacher").GetOr(""), Py)
    ensures r.Some? ==> r.value.0 == Trim(Arg(body, "name").GetOr(""), Py) && r.value.1 == Trim(Arg(body, "teacher").GetOr(""), Py)
    ensures r.Some? ==> r.value.0 != "" && r.value.1 != ""
  {
    var name := Trim(Arg(body, "name").GetOr(""), Py);
    var teacher := Trim(Arg(body, "teacher").GetOr(""), Py);
    if name == "" || teacher == "" then None else Some((name, teacher))
  }

  /** What `create_subject` makes of the fields the client sends for a new subject (a falsy editing
      id, so a POST): the client trims with JavaScript's whitespace and the service strips again
      with Python's, which together are Python's `strip` of what was typed when it holds no U+FEFF.
      The service refuses the request when either typed field is all Python whitespace, although
      the client let it through when that whitespace was not JavaScript's. (An edit is a PUT, which
      `update_subject` stores without stripping or checking.) */
  lemma {:induction false} ClientSubjectStripped(editing: Option<int>, nameInput: string, teacherInput: string)
    requires Client.SubjectSaveRequest(editing, nameInput, teacherInput).Some?
    requires !Client.Truthy(editing)
    requires NoJsOnlySpace(nameInput) && NoJsOnlySpace(teacherInput)
    ensures var q := Client.SubjectSaveRequest(editing, nameInput, teacherInput).value;
      SubjectFields(map["name" := q.name, "teacher" := q.teacher]) ==
        if AllSpace(nameInput, Py) || AllSpace(teacherInput, Py) then None
        else Some((Trim(nameInput, Py), Trim(teacherInput, Py)))
  {
    var q := Client.SubjectSaveRequest(editing, nameInput, teacherInput).value;
    var body := map["name" := q.name, "teacher" := q.teacher];
    assert Arg(body, "name").GetOr("") == q.name;
    assert Arg(body, "teacher").GetOr("") == q.teacher;
    StripAfterTrim(nameInput);
    StripAfterTrim(teacherInput);
  }

  /** When neither field the client sends starts or ends with whitespace that only Python counts
      (U+001C to U+001F, U+0085), the service accepts them and stores them unchanged. */
  lemma {:induction false} ClientSubjectAccepted(editing: Option<int>, nameInput: string, teacherInput: string)
    requires Client.SubjectSaveRequest(editing, nameInput, teacherInput).Some?
    requires Trimmed(Trim(nameInput, Js), Py) && Trimmed(Trim(teacherInput, Js), Py)
    ensures var q := Client.SubjectSaveRequest(editing, nameInput, teacherInput).value;
      SubjectFields(map["name" := q.name, "teacher" := q.teacher]) == Some((q.name, q.teacher))
  {
    var q := Client.SubjectSaveRequest(editing, nameInput, teacherInput).value;
    var body := map["name" := q.name, "teacher" := q.teacher];
    assert Arg(body, "name").GetOr("") == q.name;
    assert Arg(body, "teacher").GetOr("") == q.teacher;
    assert q.name == [] + q.name + [];
    assert q.teacher == [] + q.teacher + [];
    TrimOfPadded([], q.name, [], Py);
    TrimOfPadded([], q.teacher, [], Py);
  }

  /** A name made of U+001C alone passes the client's check, which keeps it as it is, but the
      service strips it to nothing and refuses the subject. */
  lemma ClientControlCharRejected()
    ensures var q := Client.SubjectSaveRequest(None, "\U{001C}", "T");
      q.Some? && q.value.name == "\U{001C}" &&
      SubjectFields(map["name" := q.value.name, "teacher" := q.value.teacher]).None?
  {
    var q := Client.SubjectSaveRequest(None, "\U{001C}", "T");
    assert !IsSpace('\U{001C}', Js) && !IsSpace('T', Js);
    assert q.Some?;
    assert Arg(map["name" := q.value.name, "teacher" := q.value.teacher], "name").GetOr("") == "\U{001C}";
  }

  // ---------------------------------------------------------------------------------------------
  // Feeds

  /** `content[:80]` and `description[:80] if description else ""`: a falsy description gives the
      same as an empty one, so the preview is always the first 80 characters of the text. */
  function MaterialPreview(description: Option<string>): (p: string)
    ensures p == Prefix(description.GetOr(""), PREVIEW_LENGTH)
    ensures |p| <= PREVIEW_LENGTH
  {
    if description.Some? && description.value != "" then Prefix(description.value, PREVIEW_LENGTH) else ""
  }

  function AnnouncementFeedItem(a: Announcement): Json {
    JObj([("type", JStr("announcement")), ("title", JStr(a.title)),
          ("preview", JStr(Prefix(a.content, PREVIEW_LENGTH))), ("subject", JNum(a.subjectId)),
          ("date_posted", JTime(a.datePosted))])
  }

  function MaterialFeedItem(m: Material): Json {
    JObj([("type", JStr("material")), ("title", JStr(m.title)),
          ("preview", JStr(MaterialPreview(m.description))), ("subject", JNum(m.subjectId)),
          ("date_posted", JTime(m.dateUploaded))])
  }

  /** How the client reads a latest-feed item. */
  function FeedEntryOf(j: Json): Option<Views.FeedEntry> {
    var kind := AsStr(Field(j, "type"));
    var title := AsStr(Field(j, "title"));
    var posted := AsTime(Field(j, "date_posted"));
    if kind.Some? && title.Some? && posted.Some? then Some(Views.FeedEntry(kind.value, title.value, posted.value)) else None
  }

  /** An announcement's feed item reads back as its kind, title, subject and posting date, with
      the first 80 characters of the content as its preview. */
  lemma AnnouncementFeedItemReadBack(a: Announcement)
    ensures FeedEntryOf(AnnouncementFeedItem(a)) == Some(Views.FeedEntry("announcement", a.title, a.datePosted))
    ensures var p := AsStr(Field(AnnouncementFeedItem(a), "preview"));
      p == Some(Prefix(a.content, PREVIEW_LENGTH)) && p.value <= a.content && |p.value| <= PREVIEW_LENGTH
    ensures AsNum(Field(AnnouncementFeedItem(a), "subject")) == Some(a.subjectId)
  {
    var f := AnnouncementFeedItem(a).fields;
    LookupAt(f, 0, "type");
    LookupAt(f, 1, "title");
    LookupAt(f, 2, "preview");
    LookupAt(f, 3, "subject");
    LookupAt(f, 4, "date_posted");
  }

  /** A material's feed item reads back with its subject and with its upload date as the posting
      date; its preview is the first 80 characters of the description (empty without one). */
  lemma MaterialFeedItemReadBack(m: Material)
    ensures FeedEntryOf(MaterialFeedItem(m)) == Some(Views.FeedEntry("material", m.title, m.dateUploaded))
    ensures var p := AsStr(Field(MaterialFeedItem(m), "preview"));
      p == Some(MaterialPreview(m.description)) && p.value <= m.description.GetOr("") && |p.value| <= PREVIEW_LENGTH
    ensures AsNum(Field(MaterialFeedItem(m), "subject")) == Some(m.subjectId)
  {
    var f := MaterialFeedItem(m).fields;
    LookupAt(f, 0, "type");
    LookupAt(f, 1, "title");
    LookupAt(f, 2, "preview");
    LookupAt(f, 3, "subject");
    LookupAt(f, 4, "date_posted");
  }

  function AssignmentDeadlineItem(a: Assignment): Json {
    JObj([("type", JStr("assignment")), ("title", JStr(a.title)), ("due_date", JStr(a.dueDate)),
          ("subject", JNum(a.subjectId))])
  }

  function ReminderDeadlineItem(r: Reminder): Json {
    JObj([("type", JStr("reminder")), ("title", JStr(r.message)), ("due_date", JStr(r.remindAt)),
          ("subject", JNum(r.subjectId))])
  }

  /** An upcoming-deadline item as the client reads it. */
  datatype Deadline = Deadline(kind: string, title: string, dueDate: string, subject: int)

  function DeadlineOf(j: Json): Option<Deadline> {
    var kind := AsStr(Field(j, "type"));
    var title := AsStr(Field(j, "title"));
    var due := AsStr(Field(j, "due_date"));
    var subject := AsNum(Field(j, "subject"));
    if kind.Some? && title.Some? && due.Some? && subject.Some?
    then Some(Deadline(kind.value, title.value, due.value, subject.value))
    else None
  }

  lemma AssignmentDeadlineReadBack(a: Assignment)
    ensures DeadlineOf(AssignmentDeadlineItem(a)) == Some(Deadline("assignment", a.title, a.dueDate, a.subjectId))
  {
    var f := AssignmentDeadlineItem(a).fields;
    LookupAt(f, 0, "type");
    LookupAt(f, 1, "title");
    LookupAt(f, 2, "due_date");
    LookupAt(f, 3, "subject");
  }

  /** A reminder becomes a deadline titled by its message and due at its `remind_at`. */
  lemma ReminderDeadlineReadBack(r: Reminder)
    ensures DeadlineOf(ReminderDeadlineItem(r)) == Some(Deadline("reminder", r.message, r.remindAt, r.subjectId))
  {
    var f := ReminderDeadlineItem(r).fields;
    LookupAt(f, 0, "type");
    LookupAt(f, 1, "title");
    LookupAt(f, 2, "due_date");
    LookupAt(f, 3, "subject");
  }

  // ---------------------------------------------------------------------------------------------
  // The store and its handlers

  class Database {
    var subjects: seq<Subject>
    var announcements: seq<Announcement>
    var comments: seq<Comment>
    var materials: seq<Material>
    var assignments: seq<Assignment>
    var reminders: seq<Reminder>

    /** Every table is in rowid order with distinct positive ids. */
    predicate Valid()
      reads this
    {
      IdsAscending(subjects, SubjectId) && IdsAscending(announcements, AnnouncementId) &&
      IdsAscending(comments, CommentId) && IdsAscending(materials, MaterialId) &&
      IdsAscending(assignments, AssignmentId) && IdsAscending(reminders, ReminderId)
    }

    constructor()
      ensures Valid()
      ensures subjects == [] && announcements == [] && comments == []
      ensures materials == [] && assignments == [] && reminders == []
    {
      subjects := [];
      announcements := [];
      comments := [];
      materials := [];
      assignments := [];
      reminders := [];
    }

    // Subjects

    /** `get_subjects`: one dictionary per subject in rowid order, each read back by the client as
        that subject. */
    function ListSubjects(): (items: seq<Json>)
      reads this
      ensures |items| == |subjects|
      ensures forall i :: 0 <= i < |items| ==> SubjectOfDict(items[i]) == Some(subjects[i])
    {
      var ss := subjects;
      forall s | s in ss
        ensures SubjectOfDict(SubjectDict(s)) == Some(s)
      {
        SubjectDictRoundTrip(s);
      }
      seq(|ss|, i requires 0 <= i < |ss| => SubjectDict(ss[i]))
    }

    /** `create_subject`: 400 and nothing stored when a stripped field is empty; otherwise the
        stripped fields are stored under the next id, and only that id finds something new. */
    method CreateSubject(body: Body) returns (reply: Reply)
      requires Valid()
      modifies this`subjects
      ensures Valid()
      ensures SubjectFields(body).None? ==> reply == ErrorReply(400, FIELDS_REQUIRED) && subjects == old(subjects)
      ensures SubjectFields(body).Some? ==>
        var s := Subject(NextId(old(subjects), SubjectId), SubjectFields(body).value.0, SubjectFields(body).value.1);
        subjects == old(subjects) + [s] && reply == Reply(201, JsonBody(SubjectDict(s))) &&
        forall k :: Find(subjects, SubjectId, k) == if k == s.id then Some(s) else Find(old(subjects), SubjectId, k)
    {
      var fields := SubjectFields(body);
      if fields.None? {
        return ErrorReply(400, FIELDS_REQUIRED);
      }
      var s := Subject(NextId(subjects, SubjectId), fields.value.0, fields.value.1);
      forall k
        ensures Find(subjects + [s], SubjectId, k) == if k == s.id then Some(s) else Find(subjects, SubjectId, k)
      {
        FindAfterAppend(subjects, SubjectId, s, k);
      }
      AppendNext(subjects, SubjectId, s);
      subjects := subjects + [s];
      reply := Reply(201, JsonBody(SubjectDict(s)));
    }

    /** `get_subject`: 404 exactly when no subject has the id. */
    function GetSubject(id: nat): (reply: Reply)
      reads this
      ensures reply.status == 404 <==> forall i :: 0 <= i < |subjects| ==> subjects[i].id != id
      ensures reply.status == 404 ==> reply == ErrorReply(404, SUBJECT_NOT_FOUND)
      ensures reply.status != 404 ==> exists i :: 0 <= i < |subjects| && subjects[i].id == id &&
                                        reply == Reply(200, JsonBody(SubjectDict(subjects[i])))
    {
      var found := Find(subjects, SubjectId, id);
      if found.None? then ErrorReply(404, SUBJECT_NOT_FOUND) else Reply(200, JsonBody(SubjectDict(found.value)))
    }

    /** `update_subject`: 404 and no change for an unknown id; 500 and no change when `name` or
        `teacher` is missing; otherwise exactly those two columns of that row take the raw values
        (neither stripped nor checked), and every other id finds what it found before. */
    method UpdateSubject(id: nat, body: Body) returns (reply: Reply)
      requires Valid()
      modifies this`subjects
      ensures Valid()
      ensures var i := IndexOf(old(subjects), SubjectId, id);
        if i == -1 then reply == ErrorReply(404, SUBJECT_NOT_FOUND) && subjects == old(subjects)
        else if "name" !in body || "teacher" !in body then reply == SERVER_ERROR && subjects == old(subjects)
        else
          var s := Subject(id, body["name"], body["teacher"]);
          subjects == old(subjects)[i := s] && reply == Reply(200, JsonBody(SubjectDict(s))) &&
          forall k :: Find(subjects, SubjectId, k) == if k == id then Some(s) else Find(old(subjects), SubjectId, k)
    {
      var i := IndexOf(subjects, SubjectId, id);
      if i == -1 {
        return ErrorReply(404, SUBJECT_NOT_FOUND);
      }
      if "name" !in body || "teacher" !in body {
        return SERVER_ERROR;
      }
      var s := subjects[i].(name := body["name"], teacher := body["teacher"]);
      forall k
        ensures Find(subjects[i := s], SubjectId, k) == if k == id then Some(s) else Find(subjects, SubjectId, k)
      {
        FindAfterReplace(subjects, SubjectId, i, s, k);
      }
      FindAfterReplace(subjects, SubjectId, i, s, id);
      subjects := subjects[i := s];
      reply := Reply(200, JsonBody(SubjectDict(s)));
    }

    /** `delete_subject`: 404 and no change for an unknown id; otherwise that row alone goes (rows of
        other tables that name the subject stay) and the id finds nothing any more. */
    method DeleteSubject(id: nat) returns (reply: Reply)
      requires Valid()
      modifies this`subjects
      ensures Valid()
      ensures var i := IndexOf(old(subjects), SubjectId, id);
        if i == -1 then reply == ErrorReply(404, NOT_FOUND) && subjects == old(subjects)
        else
          subjects == old(subjects)[..i] + old(subjects)[i + 1..] && reply == Reply(204, NoContent) &&
          forall k :: Find(subjects, SubjectId, k) == if k == id then None else Find(old(subjects), SubjectId, k)
    {
      var i := IndexOf(subjects, SubjectId, id);
      if i == -1 {
        return ErrorReply(404, NOT_FOUND);
      }
      forall k
        ensures Find(subjects[..i] + subjects[i + 1..], SubjectId, k) == if k == id then None else Find(subjects, SubjectId, k)
      {
        FindAfterRemove(subjects, SubjectId, i, k);
      }
      FindAfterRemove(subjects, SubjectId, i, id);
      subjects := subjects[..i] + subjects[i + 1..];
      reply := Reply(204, NoContent);
    }

    // Announcements

    /** `get_announcements_for_subject`: the announcements filed under the subject id, in rowid
        order. */
    function AnnouncementsOf(subjectId: nat): (rows: seq<Announcement>)
      reads this
      ensures forall i :: 0 <= i < |rows| ==> rows[i] in announcements && rows[i].subjectId == subjectId
      ensures forall i :: 0 <= i < |announcements| && announcements[i].subjectId == subjectId ==> announcements[i] in rows
      ensures Valid() ==> IdsAscending(rows, AnnouncementId)
    {
      var p := (a: Announcement) => a.subjectId == subjectId;
      WhereAscending(announcements, AnnouncementId, p);
      Where(announcements, p)
    }

    /** `create_announcement`: stored under the path id whether or not such a subject exists;
        500 and nothing stored when `title` or `content` is missing. */
    method CreateAnnouncement(subjectId: nat, body: Body, now: int) returns (reply: Reply)
      requires Valid()
      modifies this`announcements
      ensures Valid()
      ensures "title" in body && "content" in body ==>
        var a := Announcement(NextId(old(announcements), AnnouncementId), subjectId, body["title"], body["content"], now);
        announcements == old(announcements) + [a] && reply == Reply(201, JsonBody(AnnouncementDict(a)))
      ensures !("title" in body && "content" in body) ==> reply == SERVER_ERROR && announcements == old(announcements)
    {
      if "title" !in body || "content" !in body {
        return SERVER_ERROR;
      }
      var a := Announcement(NextId(announcements, AnnouncementId), subjectId, body["title"], body["content"], now);
      AppendNext(announcements, AnnouncementId, a);
      announcements := announcements + [a];
      reply := Reply(201, JsonBody(AnnouncementDict(a)));
    }

    /** `get_announcement`: 404 exactly when no announcement has the id. */
    function GetAnnouncement(id: nat): (reply: Reply)
      reads this
      ensures reply.status == 404 <==> forall i :: 0 <= i < |announcements| ==> announcements[i].id != id
      ensures reply.status == 404 ==> reply == ErrorReply(404, NOT_FOUND)
      ensures reply.status != 404 ==> exists i :: 0 <= i < |announcements| && announcements[i].id == id &&
                                        reply == Reply(200, JsonBody(AnnouncementDict(announcements[i])))
    {
      var found := Find(announcements, AnnouncementId, id);
      if found.None? then ErrorReply(404, NOT_FOUND) else Reply(200, JsonBody(AnnouncementDict(found.value)))
    }

    /** `update_announcement`: like `update_subject`, on `title` and `content`. */
    method UpdateAnnouncement(id: nat, body: Body) returns (reply: Reply)
      requires Valid()
      modifies this`announcements
      ensures Valid()
      ensures var i := IndexOf(old(announcements), AnnouncementId, id);
        if i == -1 then reply == ErrorReply(404, NOT_FOUND) && announcements == old(announcements)
        else if "title" !in body || "content" !in body then reply == SERVER_ERROR && announcements == old(announcements)
        else
          var a := old(announcements)[i].(title := body["title"], content := body["content"]);
          announcements == old(announcements)[i := a] && reply == Reply(200, JsonBody(AnnouncementDict(a)))
    {
      var i := IndexOf(announcements, AnnouncementId, id);
      if i == -1 {
        return ErrorReply(404, NOT_FOUND);
      }
      if "title" !in body || "content" !in body {
        return SERVER_ERROR;
      }
      var a := announcements[i].(title := body["title"], content := body["content"]);
      FindAfterReplace(announcements, AnnouncementId, i, a, id);
      announcements := announcements[i := a];
      reply := Reply(200, JsonBody(AnnouncementDict(a)));
    }

    /** `delete_announcement`: like `delete_subject`; the announcement's comments stay. */
    method DeleteAnnouncement(id: nat) returns (reply: Reply)
      requires Valid()
      modifies this`announcements
      ensures Valid()
      ensures var i := IndexOf(old(announcements), AnnouncementId, id);
        if i == -1 then reply == ErrorReply(404, NOT_FOUND) && announcements == old(announcements)
        else announcements == old(announcements)[..i] + old(announcements)[i + 1..] && reply == Reply(204, NoContent)
    {
      var i := IndexOf(announcements, AnnouncementId, id);
      if i == -1 {
        return ErrorReply(404, NOT_FOUND);
      }
      FindAfterRemove(announcements, AnnouncementId, i, id);
      announcements := announcements[..i] + announcements[i + 1..];
      reply := Reply(204, NoContent);
    }

    // Comments

    /** `get_comments`: the comments filed under the announcement id, in rowid order. */
    function CommentsOf(announcementId: nat): (rows: seq<Comment>)
      reads this
      ensures forall i :: 0 <= i < |rows| ==> rows[i] in comments && rows[i].announcementId == announcementId
      ensures forall i :: 0 <= i < |comments| && comments[i].announcementId == announcementId ==> comments[i] in rows
      ensures Valid() ==> IdsAscending(rows, CommentId)
    {
      var p := (c: Comment) => c.announcementId == announcementId;
      WhereAscending(comments, CommentId, p);
      Where(comments, p)
    }

    /** `add_comment`: stored under the path id without looking the announcement up; `user` and
        `content` are required. */
    method AddComment(announcementId: nat, body: Body, now: int) returns (reply: Reply)
      requires Valid()
      modifies this`comments
      ensures Valid()
      ensures "user" in body && "content" in body ==>
        var c := Comment(NextId(old(comments), CommentId), announcementId, body["user"], body["content"], now);
        comments == old(comments) + [c] && reply == Reply(201, JsonBody(CommentDict(c)))
      ensures !("user" in body && "content" in body) ==> reply == SERVER_ERROR && comments == old(comments)
    {
      if "user" !in body || "content" !in body {
        return SERVER_ERROR;
      }
      var c := Comment(NextId(comments, CommentId), announcementId, body["user"], body["content"], now);
      AppendNext(comments, CommentId, c);
      comments := comments + [c];
      reply := Reply(201, JsonBody(CommentDict(c)));
    }

    // Materials

    /** `get_materials`: the materials filed under the subject id, in rowid order. */
    function MaterialsOf(subjectId: nat): (rows: seq<Material>)
      reads this
      ensures forall i :: 0 <= i < |rows| ==> rows[i] in materials && rows[i].subjectId == subjectId
      ensures forall i :: 0 <= i < |materials| && materials[i].subjectId == subjectId ==> materials[i] in rows
      ensures Valid() ==> IdsAscending(rows, MaterialId)
    {
      var p := (m: Material) => m.subjectId == subjectId;
      WhereAscending(materials, MaterialId, p);
      Where(materials, p)
    }

    /** `create_material`: `title` is required; `description` and `file_url` are stored as null
        when absent. */
    method CreateMaterial(subjectId: nat, body: Body, now: int) returns (reply: Reply)
      requires Valid()
      modifies this`materials
      ensures Valid()
      ensures "title" in body ==>
        var m := Material(NextId(old(materials), MaterialId), subjectId, body["title"],
                          Arg(body, "description"), Arg(body, "file_url"), now);
        materials == old(materials) + [m] && reply == Reply(201, JsonBody(MaterialDict(m)))
      ensures "title" !in body ==> reply == SERVER_ERROR && materials == old(materials)
    {
      if "title" !in body {
        return SERVER_ERROR;
      }
      var m := Material(NextId(materials, MaterialId), subjectId, body["title"],
                        Arg(body, "description"), Arg(body, "file_url"), now);
      AppendNext(materials, MaterialId, m);
      materials := materials + [m];
      reply := Reply(201, JsonBody(MaterialDict(m)));
    }

    // Assignments

    /** `get_assignments`: the assignments filed under the subject id, in rowid order. */
    function AssignmentsOf(subjectId: nat): (rows: seq<Assignment>)
      reads this
      ensures forall i :: 0 <= i < |rows| ==> rows[i] in assignments && rows[i].subjectId == subjectId
      ensures forall i :: 0 <= i < |assignments| && assignments[i].subjectId == subjectId ==> assignments[i] in rows
      ensures Valid() ==> IdsAscending(rows, AssignmentId)
    {
      var p := (a: Assignment) => a.subjectId == subjectId;
      WhereAscending(assignments, AssignmentId, p);
      Where(assignments, p)
    }

    /** `create_assignment`: `title` and `due_date` are required (the due date is stored as the
        text sent); `instructions` is null when absent. */
    method CreateAssignment(subjectId: nat, body: Body) returns (reply: Reply)
      requires Valid()
      modifies this`assignments
      ensures Valid()
      ensures "title" in body && "due_date" in body ==>
        var a := Assignment(NextId(old(assignments), AssignmentId), subjectId, body["title"],
                            Arg(body, "instructions"), body["due_date"]);
        assignments == old(assignments) + [a] && reply == Reply(201, JsonBody(AssignmentDict(a)))
      ensures !("title" in body && "due_date" in body) ==> reply == SERVER_ERROR && assignments == old(assignments)
    {
      if "title" !in body || "due_date" !in body {
        return SERVER_ERROR;
      }
      var a := Assignment(NextId(assignments, AssignmentId), subjectId, body["title"],
                          Arg(body, "instructions"), body["due_date"]);
      AppendNext(assignments, AssignmentId, a);
      assignments := assignments + [a];
      reply := Reply(201, JsonBody(AssignmentDict(a)));
    }

    // Reminders

    /** `get_reminders`: the reminders filed under the subject id, in rowid order. */
    function RemindersOf(subjectId: nat): (rows: seq<Reminder>)
      reads this
      ensures forall i :: 0 <= i < |rows| ==> rows[i] in reminders && rows[i].subjectId == subjectId
      ensures forall i :: 0 <= i < |reminders| && reminders[i].subjectId == subjectId ==> reminders[i] in rows
      ensures Valid() ==> IdsAscending(rows, ReminderId)
    {
      var p := (r: Reminder) => r.subjectId == subjectId;
      WhereAscending(reminders, ReminderId, p);
      Where(reminders, p)
    }

    /** `create_reminder`: `message` and `remind_at` are required. */
    method CreateReminder(subjectId: nat, body: Body) returns (reply: Reply)
      requires Valid()
      modifies this`reminders
      ensures Valid()
      ensures "message" in body && "remind_at" in body ==>
        var r := Reminder(NextId(old(reminders), ReminderId), subjectId, body["message"], body["remind_at"]);
        reminders == old(reminders) + [r] && reply == Reply(201, JsonBody(ReminderDict(r)))
      ensures !("message" in body && "remind_at" in body) ==> reply == SERVER_ERROR && reminders == old(reminders)
    {
      if "message" !in body || "remind_at" !in body {
        return SERVER_ERROR;
      }
      var r := Reminder(NextId(reminders, ReminderId), subjectId, body["message"], body["remind_at"]);
      AppendNext(reminders, ReminderId, r);
      reminders := reminders + [r];
      reply := Reply(201, JsonBody(ReminderDict(r)));
    }

    // Feeds

    /** `feed_latest`: one item per announcement, in rowid order, then one per material. */
    method FeedLatest() returns (feed: seq<Json>)
      ensures |feed| == |announcements| + |materials|
      ensures forall i :: 0 <= i < |announcements| ==> feed[i] == AnnouncementFeedItem(announcements[i])
      ensures forall j :: 0 <= j < |materials| ==> feed[|announcements| + j] == MaterialFeedItem(materials[j])
    {
      feed := [];
      var i := 0;
      while i < |announcements|
        invariant 0 <= i <= |announcements|
        invariant |feed| == i
        invariant forall k :: 0 <= k < i ==> feed[k] == AnnouncementFeedItem(announcements[k])
      {
        feed := feed + [AnnouncementFeedItem(announcements[i])];
        i := i + 1;
      }
      var j := 0;
      while j < |materials|
        invariant 0 <= j <= |materials|
        invariant |feed| == |announcements| + j
        invariant forall k :: 0 <= k < |announcements| ==> feed[k] == AnnouncementFeedItem(announcements[k])
        invariant forall k :: 0 <= k < j ==> feed[|announcements| + k] == MaterialFeedItem(materials[k])
      {
        feed := feed + [MaterialFeedItem(materials[j])];
        j := j + 1;
      }
    }

    /** `feed_deadlines`: one item per assignment, in rowid order, then one per reminder. */
    method FeedDeadlines() returns (deadlines: seq<Json>)
      ensures |deadlines| == |assignments| + |reminders|
      ensures forall i :: 0 <= i < |assignments| ==> deadlines[i] == AssignmentDeadlineItem(assignments[i])
      ensures forall j :: 0 <= j < |reminders| ==> deadlines[|assignments| + j] == ReminderDeadlineItem(reminders[j])
    {
      deadlines := [];
      var i := 0;
      while i < |assignments|
        invariant 0 <= i <= |assignments|
        invariant |deadlines| == i
        invariant forall k :: 0 <= k < i ==> deadlines[k] == AssignmentDeadlineItem(assignments[k])
      {
        deadlines := deadlines + [AssignmentDeadlineItem(assignments[i])];
        i := i + 1;
      }
      var j := 0;
      while j < |reminders|
        invariant 0 <= j <= |reminders|
        invariant |deadlines| == |assignments| + j
        invariant forall k :: 0 <= k < |assignments| ==> deadlines[k] == AssignmentDeadlineItem(assignments[k])
        invariant forall k :: 0 <= k < j ==> deadlines[|assignments| + k] == ReminderDeadlineItem(reminders[k])
      {
        deadlines := deadlines + [ReminderDeadlineItem(reminders[j])];
        j := j + 1;
      }
    }
  }
}
