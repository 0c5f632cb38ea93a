# StudySphere in Dafny

StudySphere is a small course dashboard. It has two parts:

- A Flask service (`api.py`) keeps subjects and, filed under them, announcements (with comments),
  materials, assignments and reminders in SQLite. It serves them as JSON.
- A browser client (`static/app.js`) fetches lists from the service and renders them as cards. It derives
  labels, priorities and counters from the dates. It edits subjects through a modal dialog.

The client asks for the announcement, material, assignment and reminder lists at `GET /announcement`, `/material`, `/assignment` and `/reminder` (app.js lines 260, 482, 650, 839 and 1015-1017). The service has no such routes: it files these records under `/subject/<id>/...`. Flask answers those requests with an HTML 404 page, `response.json()` then rejects, and the client only logs the error. So, against this service, the four list views and the dashboard's announcement, material and assignment counts never receive a list. The model states these views and counters as functions of a list, the one the service as written never delivers.

This project models both halves and proves what they promise.

- **Client display rules** (modules `Text`, `Dates`, `Display`, `Views`):
  - `getDaysUntil` and `getTimeAgo` over integer millisecond time values, with JavaScript's `Math.ceil` and `Math.floor`;
  - the subject label and the course code built from its initials;
  - the PDF/Video classification of materials and its counters;
  - the priority badge, which is read back from the days-left label with `includes` and `parseInt`;
  - the urgent, this-week and today counters;
  - the in-place sorts and the first-five truncation of the reminder list and of the two dashboard feeds.
- **Client state** (module `Client`, class `Dashboard`):
  - the cached subject list, the editing id and the modal;
  - `closeModal`, `openSubjectModal`, `saveSubject` with its validation and its choice of PUT or POST;
  - the "create a subject first" guards of the other dialogs.
- **Service handlers** (modules `Tables`, `Json`, `Api`, class `Database`):
  - Tables are sequences in rowid order with strictly ascending positive ids.
  - An insert takes the largest id plus one, the id SQLite gives a row.
  - The subject handlers: create, get, update and delete.
  - The announcement handlers: create, get, update, delete and list.
  - Child records: create and list for comments, materials, assignments and reminders.
  - Both feeds, and every `to_dict` with the client's reading of it.

Dates are integer milliseconds. The current instant, the next local midnight and the response status are parameters. A request body is a map from member names to strings.

A date string the client cannot parse is an Invalid Date, modelled as `Unparsable`. Its label is "NaN days left" or "NaN days ago". It gets medium priority and no counter counts it.

A missing required body member raises `KeyError`. The handler answers 500 and stores nothing, because it stops before `commit`.

Some properties stated and proved here go beyond the obvious reading of the source:

- **Days-left buckets.** A past instant less than a day old is "Today", not "Overdue".
- **Priority.** "urgent" means exactly 2 or 3 days left, so "Today" and "Tomorrow" are medium. The urgent counter does count them. Every card marked urgent is counted (`UrgentCardsAreCounted`). The converse fails: an assignment due in an hour is counted but shown as medium (`UrgentCounterIncludesTomorrow`).
- **Unknown edit id.** Opening the subject dialog with an id the cache lacks shows "Add New Subject". Saving still sends a PUT to that id (`UnknownEditIdStillUpdates`).
- **Subject create.** The client trims with JavaScript's whitespace and the service strips with Python's. Together they amount to Python's `strip` of what was typed, for text without U+FEFF (`ClientSubjectStripped`). Python also counts U+001C to U+001F and U+0085 as whitespace. So a name consisting of U+001C alone passes the client's check, and the service then answers 400 (`ClientControlCharRejected`). Fields whose ends are not such characters are accepted and stored as sent (`ClientSubjectAccepted`).
- **Subject update.** `update_subject` stores the raw values, neither stripped nor checked.
- **No parent checks.** Child records are filed under the path id without looking the parent up.
- **Deletes.** A delete leaves the rows that refer to the deleted row in place.

## Model

| member | source | states |
|---|---|---|
| Dates.FloorDiv | Prototype/StudySphere/static/app.js:49-51 | `Math.floor(a / b)` for a positive divisor: the largest q with b*q <= a |
| Dates.CeilDiv | Prototype/StudySphere/static/app.js:36 | `Math.ceil(a / b)` for a positive divisor: the smallest q with a <= b*q |
| Dates.DaysLeft | Prototype/StudySphere/static/app.js:35-36 | the ceiling day count is negative, 0, 1 or at least 2 exactly for the four ranges of target - now |
| Dates.DaysUntil | Prototype/StudySphere/static/app.js:31-42 | the label is empty exactly for a falsy date string |
| Dates.DaysUntilBuckets | Prototype/StudySphere/static/app.js:31-42 | "Overdue" iff d <= -1 day, "Today" iff -1 day < d <= 0, "Tomorrow" iff 0 < d <= 1 day, "n days left" iff d > 1 day, and then n >= 2 |
| Dates.TimeAgo | Prototype/StudySphere/static/app.js:44-57 | the label is empty exactly for a falsy date string |
| Dates.AgoThresholds | Prototype/StudySphere/static/app.js:49-56 | the minute, hour and day floor divisions switch buckets at 1 hour, 1 day and 2 days; the hour count is 1..23 and the day count at least 2 where they are shown |
| Dates.AgoShapesDistinct | Prototype/StudySphere/static/app.js:53-56 | a minutes label, an hours label and a days label are never equal, whatever the counts |
| Dates.TimeAgoBuckets | Prototype/StudySphere/static/app.js:44-57 | the four time-ago buckets are mutually exclusive ranges of now - target: minutes below 1 hour (negative counts included), hours 1..23 below 1 day, "Yesterday" in the second day, days >= 2 beyond |
| Text.Trim | Prototype/StudySphere/static/app.js:192-193 | `trim` with JavaScript's whitespace, `strip` with Python's: the result is empty iff the input is all whitespace, and neither of its ends is whitespace |
| Text.TrimSplits | Prototype/StudySphere/static/app.js:192-193 | the input is whitespace, then the trimmed text, then whitespace |
| Text.TrimOfPadded | Prototype/StudySphere/static/app.js:192-193 | whitespace, a non-empty text whose ends are not whitespace, and whitespace trim to exactly that text |
| Text.TrimIdempotent | Prototype/StudySphere/api.py:127-128 | stripping an already trimmed string changes nothing |
| Text.StripAfterTrim | Prototype/StudySphere/api.py:127-128 | for text without U+FEFF, Python's `strip` after JavaScript's `trim` is Python's `strip` alone |
| Text.ByteOrderMarkTrimmedOnlyByJs | Prototype/StudySphere/static/app.js:192-193 | `trim` removes a leading U+FEFF that `strip` keeps, so `StripAfterTrim` needs its precondition |
| Text.Contains | Prototype/StudySphere/static/app.js:506 | `includes` holds iff the substring occurs at some offset |
| Text.ParseIntOfNatToString | Prototype/StudySphere/static/app.js:676 | `parseInt` on a printed count followed by a non-digit gives back the count |
| Text.JoinSplit | Prototype/StudySphere/static/app.js:114 | `split(' ')` loses nothing: joining the segments with single spaces restores the text |
| Text.FirstCharsOfSplit | Prototype/StudySphere/static/app.js:114 | the first characters of the `split(' ')` segments are exactly the word starts; empty segments from repeated, leading or trailing spaces contribute nothing |
| Text.Prefix | Prototype/StudySphere/api.py:300 | `s[:80]`: a prefix of s of length min(len s, 80) |
| Display.CountWhere | Prototype/StudySphere/static/app.js:544 | `filter(p).length` is at most the list length and is 0 iff no element passes |
| Display.CountWhereMono | Prototype/StudySphere/static/app.js:718-727 | a weaker filter never counts fewer elements |
| Display.CountPartition | Prototype/StudySphere/static/app.js:544-545 | two complementary filters count the whole list between them |
| Display.NameMapLastWins | Prototype/StudySphere/static/app.js:278-279 | an id is in the subject map iff a cached subject has it, and maps to the name of the last such subject |
| Display.BuildNameMap | Prototype/StudySphere/static/app.js:278-279 | the `forEach` loop builds exactly the subject map |
| Display.SubjectLabel | Prototype/StudySphere/static/app.js:282 | the label shown is never empty |
| Display.SubjectLabelFromCache | Prototype/StudySphere/static/app.js:282 | a cached id shows the last cached name for it, or the placeholder when that name is empty |
| Display.SubjectLabelFallback | Prototype/StudySphere/static/app.js:282 | an id missing from the cache shows "Subject <id>" |
| Display.CourseCodeFromWordStarts | Prototype/StudySphere/static/app.js:283 | the course code is the upper-cased word starts of the label, "-", and 100 + id |
| Display.RenderSubjects | Prototype/StudySphere/static/app.js:105-114 | the empty state iff no subjects, otherwise one card per subject, in order, showing its name and teacher and the course code built from its own name |
| Display.RenderAnnouncements | Prototype/StudySphere/static/app.js:272-283 | the empty state iff no announcements, otherwise one card per announcement, in order, showing its title and content and the course code of its subject's label |
| Display.FileSize | Prototype/StudySphere/static/app.js:507 | "N/A" iff the URL is falsy; with a URL, "2.4 MB" for a PDF and "128 MB" for a video |
| Display.RenderMaterials | Prototype/StudySphere/static/app.js:495-506 | the empty state iff no materials; one card per material, in order, tagged "PDF" iff its file type is PDF, with its title, its `FileSize` and the course code of its subject's label |
| Display.MaterialStatsOf | Prototype/StudySphere/static/app.js:542-549 | the total is the list length, PDFs plus videos make the total, and the size label is 65 times the count in MB |
| Display.PdfCounterMatchesCards | Prototype/StudySphere/static/app.js:506-545 | the PDF and video counters equal the numbers of cards tagged PDF and Video |
| Display.NotContains | Prototype/StudySphere/static/app.js:676 | a string lacking a character of "days" does not include "days" |
| Display.PriorityOfDueDate | Prototype/StudySphere/static/app.js:674-677 | priority is "urgent" iff 2..3 days are left, "high" iff 4..7, and "medium" otherwise (Today, Tomorrow, Overdue, no date, unparsable date) |
| Display.PriorityOfNaN | Prototype/StudySphere/static/app.js:676-677 | the label of an unparsable date gets medium priority |
| Display.PriorityOfDayCount | Prototype/StudySphere/static/app.js:676-677 | "n days left" is urgent for n <= 3, high for n <= 7, medium beyond |
| Display.RenderAssignments | Prototype/StudySphere/static/app.js:663-677 | the empty state iff no assignments, otherwise one card per assignment, in order, with its title, its days-left label, the priority read from that label and the course code of its subject's label |
| Display.AssignmentStatsOf | Prototype/StudySphere/static/app.js:712-730 | total and active are the list length; the urgent and due-this-week counters never exceed it |
| Display.UrgentCardsAreCounted | Prototype/StudySphere/static/app.js:676-722 | the urgent counter is at least the number of cards marked urgent |
| Display.UrgentCounterIncludesTomorrow | Prototype/StudySphere/static/app.js:676-722 | an assignment due in an hour is counted as urgent while its card shows "Tomorrow" with medium priority |
| Display.ReminderStatsOf | Prototype/StudySphere/static/app.js:899-916 | the total is the list length; the this-week and today counters never exceed it |
| Display.UnparsableRemindersUncounted | Prototype/StudySphere/static/app.js:905-913 | reminders whose `remind_at` is missing or does not parse add to the total and leave both time counters as they were |
| Display.TodayWithinThisWeek | Prototype/StudySphere/static/app.js:905-913 | while the next midnight is within a week, the today counter is at most the this-week counter |
| Views.SortByKey | Prototype/StudySphere/static/app.js:861 | the in-place sort leaves the array ordered by the key and a permutation of what it was |
| Views.RenderReminders | Prototype/StudySphere/static/app.js:852-867 | the empty state iff no reminders; otherwise the array is permuted in place, into ascending `remind_at` order when every date parses, and the i-th card shows the i-th reminder |
| Views.LatestActivity | Prototype/StudySphere/static/app.js:1046-1060 | the feed is permuted in place into newest-first order; the empty state iff it is empty; otherwise the first min(5, n) items, each with its time-ago label |
| Views.UpcomingDeadlines | Prototype/StudySphere/static/app.js:1081-1098 | the deadlines are permuted in place into soonest-first order; the count label is the full length + " Active"; the empty state iff there are none; otherwise the first min(5, n), each with its days-left label |
| Client.FindSubject | Prototype/StudySphere/static/app.js:168 | finds a subject iff a cached subject has the id, and what it finds is the first cached subject with that id, as `find` returns |
| Client.SubjectModalTitle | Prototype/StudySphere/static/app.js:166-187 | "Edit Subject" iff the id is truthy and cached, else "Add New Subject" |
| Client.SubjectSaveRequest | Prototype/StudySphere/static/app.js:190-204 | no request iff a field is blank; otherwise the trimmed, non-empty fields, by PUT to /subject/<id> iff the editing id is truthy and by POST to /subject otherwise |
| Client.UnknownEditIdStillUpdates | Prototype/StudySphere/static/app.js:166-201 | an uncached non-zero id shows "Add New Subject" yet saving sends a PUT |
| Client.Dashboard.constructor | Prototype/StudySphere/static/app.js:4-6 | an empty cache, no editing id, the modal closed |
| Client.Dashboard.LoadSubjects | Prototype/StudySphere/static/app.js:90-99 | a successful fetch replaces the cache; a failed one leaves it |
| Client.Dashboard.CloseModal | Prototype/StudySphere/static/app.js:66-69 | the modal closes and the editing id is cleared |
| Client.Dashboard.OpenSubjectModal | Prototype/StudySphere/static/app.js:166-188 | the editing id becomes the argument and the modal opens under the computed title |
| Client.Dashboard.SaveSubject | Prototype/StudySphere/static/app.js:190-224 | sends exactly the request `SubjectSaveRequest` describes; closes and clears the editing id only when a request was sent and answered ok; otherwise nothing changes |
| Client.Dashboard.OpenAnnouncementModal | Prototype/StudySphere/static/app.js:310-345 | opens iff the cache is not empty; otherwise nothing changes |
| Client.Dashboard.OpenMaterialModal | Prototype/StudySphere/static/app.js:552-591 | opens iff the cache is not empty; otherwise nothing changes |
| Client.Dashboard.OpenAssignmentModal | Prototype/StudySphere/static/app.js:733-775 | opens iff the cache is not empty, and sets the editing id only then |
| Client.Dashboard.OpenReminderModal | Prototype/StudySphere/static/app.js:919-954 | opens iff the cache is not empty; otherwise nothing changes |
| Tables.NextId | Prototype/StudySphere/api.py:131-133 | the id of an inserted row is positive and greater than every id present |
| Tables.Find | Prototype/StudySphere/api.py:138 | `query.get(k)` finds nothing iff no row has id k, and otherwise a row of the table with id k |
| Tables.FindAt | Prototype/StudySphere/api.py:138 | in a well-formed table the id of a row finds that row |
| Tables.FindAfterAppend | Prototype/StudySphere/api.py:131-133 | after an insert only the new id finds something new |
| Tables.FindAfterReplace | Prototype/StudySphere/api.py:150-152 | replacing a row keeps the table well formed and changes what its id finds and nothing else |
| Tables.FindAfterRemove | Prototype/StudySphere/api.py:162-163 | removing a row keeps the table well formed; its id finds nothing and every other id finds what it did |
| Tables.Where | Prototype/StudySphere/api.py:169 | `filter_by(...).all()` returns only matching rows of the table, and every matching row |
| Tables.WhereAscending | Prototype/StudySphere/api.py:169 | the filtered rows stay in ascending rowid order |
| Api.Arg | Prototype/StudySphere/api.py:243-244 | `data.get(key)` is present iff the member is, with its value |
| Api.SubjectDictRoundTrip | Prototype/StudySphere/api.py:21-22 | reading the subject dictionary back gives the subject |
| Api.AnnouncementDictRoundTrip | Prototype/StudySphere/api.py:31-38 | reading the announcement dictionary back gives the announcement |
| Api.CommentDictRoundTrip | Prototype/StudySphere/api.py:48-55 | reading the comment dictionary back gives the comment |
| Api.MaterialDictRoundTrip | Prototype/StudySphere/api.py:65-73 | reading the material dictionary back gives the material, nulls included |
| Api.AssignmentDictRoundTrip | Prototype/StudySphere/api.py:83-90 | reading the assignment dictionary back gives the assignment, nulls included |
| Api.ReminderDictRoundTrip | Prototype/StudySphere/api.py:98-104 | reading the reminder dictionary back gives the reminder |
| Api.SubjectFields | Prototype/StudySphere/api.py:126-130 | rejected iff the name or teacher (empty when absent) is all Python whitespace; otherwise the pair stripped by Python's `strip`, both non-empty |
| Api.ClientSubjectStripped | Prototype/StudySphere/api.py:126-130 | for a new subject (falsy editing id, so a POST) typed without U+FEFF, `create_subject` rejects what the client sends iff a typed field is all Python whitespace, and otherwise keeps Python's `strip` of what was typed |
| Api.ClientSubjectAccepted | Prototype/StudySphere/api.py:126-130 | a subject the client sends whose fields do not start or end with Python-only whitespace passes the check of `create_subject` and is kept as sent |
| Api.ClientControlCharRejected | Prototype/StudySphere/api.py:126-130 | the client sends the name U+001C unchanged, and the service's check rejects it |
| Api.MaterialPreview | Prototype/StudySphere/api.py:309 | a material's preview is the first 80 characters of its description, empty without one |
| Api.AnnouncementFeedItemReadBack | Prototype/StudySphere/api.py:296-302 | an announcement's feed item reads back as its kind, title, subject and posting date, with exactly `content[:80]` as its preview |
| Api.MaterialFeedItemReadBack | Prototype/StudySphere/api.py:305-311 | a material's feed item reads back with its subject, its upload date as posting date and exactly `description[:80]` (empty without a description) as its preview |
| Api.AssignmentDeadlineReadBack | Prototype/StudySphere/api.py:323-329 | an assignment's deadline item reads back as its kind, title, due date and subject |
| Api.ReminderDeadlineReadBack | Prototype/StudySphere/api.py:331-337 | a reminder's deadline item is titled by its message and due at its `remind_at` |
| Api.Database.constructor | Prototype/StudySphere/api.py:107-110 | all six tables empty and well formed |
| Api.Database.ListSubjects | Prototype/StudySphere/api.py:118-121 | one dictionary per subject in rowid order, each read back as that subject |
| Api.Database.CreateSubject | Prototype/StudySphere/api.py:124-134 | 400 with the message and nothing stored when a field stripped by Python's `strip` is empty; otherwise 201 with the stripped fields stored under the next id, and only that id finds something new |
| Api.Database.GetSubject | Prototype/StudySphere/api.py:136-141 | 404 "Subject not found" iff no subject has the id, otherwise 200 with that subject's dictionary |
| Api.Database.UpdateSubject | Prototype/StudySphere/api.py:143-154 | 404 and no change for an unknown id; 500 and no change when a member is missing; otherwise exactly name and teacher take the raw values and every other id finds what it did |
| Api.Database.DeleteSubject | Prototype/StudySphere/api.py:156-164 | 404 "Not found" and no change for an unknown id; otherwise 204, that row alone goes and its id finds nothing |
| Api.Database.AnnouncementsOf | Prototype/StudySphere/api.py:167-170 | exactly the announcements filed under the subject id, in rowid order |
| Api.Database.CreateAnnouncement | Prototype/StudySphere/api.py:172-182 | 201 with the announcement stored under the next id and the path subject id, whether or not that subject exists; 500 and nothing stored without title or content |
| Api.Database.GetAnnouncement | Prototype/StudySphere/api.py:184-189 | 404 iff no announcement has the id, otherwise 200 with its dictionary |
| Api.Database.UpdateAnnouncement | Prototype/StudySphere/api.py:191-202 | 404 for an unknown id, 500 without title or content, otherwise exactly title and content of that row change |
| Api.Database.DeleteAnnouncement | Prototype/StudySphere/api.py:204-212 | 404 for an unknown id, otherwise 204 and only that row goes (its comments stay) |
| Api.Database.CommentsOf | Prototype/StudySphere/api.py:215-218 | exactly the comments filed under the announcement id, in rowid order |
| Api.Database.AddComment | Prototype/StudySphere/api.py:220-230 | 201 with the comment stored under the path announcement id without a lookup; 500 and nothing stored without user or content |
| Api.Database.MaterialsOf | Prototype/StudySphere/api.py:233-236 | exactly the materials filed under the subject id, in rowid order |
| Api.Database.CreateMaterial | Prototype/StudySphere/api.py:238-249 | 201 with the material stored, description and file URL null when absent; 500 and nothing stored without a title |
| Api.Database.AssignmentsOf | Prototype/StudySphere/api.py:252-255 | exactly the assignments filed under the subject id, in rowid order |
| Api.Database.CreateAssignment | Prototype/StudySphere/api.py:257-268 | 201 with the assignment stored, instructions null when absent; 500 and nothing stored without title or due date |
| Api.Database.RemindersOf | Prototype/StudySphere/api.py:271-274 | exactly the reminders filed under the subject id, in rowid order |
| Api.Database.CreateReminder | Prototype/StudySphere/api.py:276-286 | 201 with the reminder stored; 500 and nothing stored without message or remind_at |
| Api.Database.FeedLatest | Prototype/StudySphere/api.py:289-314 | one item per announcement in rowid order, then one per material: the length is the sum of both |
| Api.Database.FeedDeadlines | Prototype/StudySphere/api.py:316-339 | one item per assignment in rowid order, then one per reminder: the length is the sum of both |

## Left out

- Network, `fetch`, JSON parsing and the DOM (`innerHTML`, `textContent`, `alert`, `confirm`, `console`) are input and output. The model takes the fetched lists and the response status as parameters.
- Locale formatting is not modelled: `formatDate`, `formatDateShort` and `toLocaleTimeString`.
- Date-string parsing by `new Date(...)` is not modelled. A date arrives already as `Missing`, `Unparsable` or a millisecond value. The client parses the service's naive `isoformat` text as local time, which makes the service's UTC instants shift by the local offset. That shift is not modelled.
- The next local midnight (`todayEnd`) is a parameter. The calendar computation that produces it is not modelled.
- `Math.random` student counts, `getSubjectDescription`, the colour cycling, the mock `isPinned` badge and fixed decorative strings are left out. They do not affect any state or counter.
- The `Promise.all` fan-out of the dashboard and comments loaders, and overlapping save requests, are concurrency with no ordering guarantee.
- The other save and delete handlers on the client (`saveAnnouncement`, `saveMaterial`, `saveAssignment`, `saveReminder`, the `delete*` functions) and the comments dialog are not modelled. They only forward form values to the service. The delete handlers for materials, assignments and reminders call `DELETE /material/<id>`, `/assignment/<id>` and `/reminder/<id>` (app.js lines 628, 817 and 990), which the service does not have.
- Client.Dashboard.SaveSubject does not model the reload of the subject list after a successful save. The reload is `LoadSubjects`, a separate step.
- Views.RenderReminders: when a `remind_at` does not parse, JavaScript's comparator returns NaN and the order is up to the engine. The model then sorts that reminder as time value 0 and promises only a permutation.
- Views.LatestActivity and Views.UpcomingDeadlines sort integer keys. An unparsable date in those lists makes the comparator inconsistent in the same way, so that case is not modelled. The stability of `Array.prototype.sort` is not modelled either.
- Api: request bodies hold only strings. A JSON `null` or a non-string member value, a body that is not JSON or is JSON but not an object (a list, say, on which `.get` and `[...]` raise and the service answers 500), and the `String(n)` length limits are not modelled. SQLite does not enforce those limits.
- Api: the text `isoformat` makes of a timestamp is not modelled. A timestamp stays a time value in the JSON model.
- Api: the `datetime.utcnow` default is the parameter `now`.
- Api: creating the database file, `send_from_directory` and `app.run` are not modelled.
- Api: SQLite may reuse the id of a deleted last row. The model does the same, taking the largest present id plus one. Foreign keys are neither enforced nor cascaded, as in the source.
- Text: `trim`, `strip` and `parseInt` use the full whitespace sets of both languages, but `toUpperCase` is modelled on ASCII letters only and `parseInt` on decimal digits only.
- Text: strings are sequences of Unicode characters, while JavaScript's are UTF-16 code units. So `w[0]` in the course code takes a whole character. JavaScript takes the first code unit, a lone surrogate when the first character of a word lies outside the Basic Multilingual Plane.
- Api: a path whose id is not unsigned decimal digits matches no route, and Flask answers 404 itself; that routing is not modelled, and handler path ids are `nat`.
