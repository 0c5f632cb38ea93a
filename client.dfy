/** The dashboard client's own state: the cached subject list, the id of the record being edited and
    whether the modal dialog is open, with the operations that open, save and close the dialogs. */
module Client {
  import opened Wrappers
  import opened Text
  import opened Records

  /** The modal dialog: closed, or open under a title. */
  datatype Modal = Closed | Open(title: string)

  datatype HttpMethod = Get | Post | Put | Delete

  /** The request `saveSubject` sends: its verb, its path and the JSON body `{ name, teacher }`. */
  datatype SubjectRequest = SubjectRequest(verb: HttpMethod, path: string, name: string, teacher: string)

  /** JavaScript truthiness of the editing id: `null` and `0` are falsy. */
  predicate Truthy(editing: Option<int>) {
    editing.Some? && editing.value != 0
  }

  /** `subjects.find(s => s.id === id)`: the first cached subject with that id. */
  function FindSubject(subjects: seq<Subject>, id: int): (r: Option<Subject>)
    ensures r.Some? <==> exists i :: 0 <= i < |subjects| && subjects[i].id == id
    ensures r.Some? ==> r.value in subjects && r.value.id == id
    ensures r.Some? ==> exists k :: (0 <= k < |subjects| && subjects[k] == r.value &&
      forall j :: 0 <= j < k ==> subjects[j].id != id)
  {
    if |subjects| == 0 then None
    else if subjects[0].id == id then Some(subjects[0])
    else
      var r := FindSubject(subjects[1..], id);
      if r.Some? then
        var k :| (0 <= k < |subjects| - 1 && subjects[1..][k] == r.value &&
          forall j :: 0 <= j < k ==> subjects[1..][j].id != id);
        assert subjects[k + 1] == r.value;
        assert forall j :: 1 <= j < k + 1 ==> subjects[j] == subjects[1..][j - 1];
        r
      else r
  }

  /** The title `openSubjectModal` shows: editing only when the id is truthy and a cached subject
      has it. */
  function SubjectModalTitle(subjects: seq<Subject>, subjectId: Option<int>): (title: string)
    ensures title == "Edit Subject" <==> Truthy(subjectId) && FindSubject(subjects, subjectId.value).Some?
    ensures title == "Edit Subject" || title == "Add New Subject"
  {
    if Truthy(subjectId) && FindSubject(subjects, subjectId.value).Some? then "Edit Subject" else "Add New Subject"
  }

  /** What `saveSubject` sends for the given inputs and editing id: nothing when a trimmed field is
      empty; otherwise the trimmed fields, by PUT to the edited subject when the editing id is truthy
      and by POST to the collection when it is not. */
  function SubjectSaveRequest(editing: Option<int>, nameInput: string, teacherInput: string): (r: Option<SubjectRequest>)
    ensures r.None? <==> AllSpace(nameInput, Js) || AllSpace(teacherInput, Js)
    ensures r.Some? ==> r.value.name == Trim(nameInput, Js) && r.value.teacher == Trim(teacherInput, Js)
    ensures r.Some? ==> r.value.name != "" && r.value.teacher != ""
    ensures r.Some? ==> (r.value.verb == Put <==> Truthy(editing))
    ensures r.Some? ==> (r.value.verb == Put || r.value.verb == Post)
    ensures r.Some? && Truthy(editing) ==> r.value.path == "/subject/" + IntToString(editing.value)
    ensures r.Some? && !Truthy(editing) ==> r.value.path == "/subject"
  {
    var name := Trim(nameInput, Js);
    var teacher := Trim(teacherInput, Js);
    if name == "" || teacher == "" then None
    else if Truthy(editing) then Some(SubjectRequest(Put, "/subject/" + IntToString(editing.value), name, teacher))
    else Some(SubjectRequest(Post, "/subject", name, teacher))
  }

  /** Opening the subject dialog for an id that is not in the cache shows the "Add" title, yet the
      id is still the editing id, so saving updates that id rather than creating a subject. */
  lemma UnknownEditIdStillUpdates(subjects: seq<Subject>, id: int, nameInput: string, teacherInput: string)
    requires id != 0 && forall i :: 0 <= i < |subjects| ==> subjects[i].id != id
    requires !AllSpace(nameInput, Js) && !AllSpace(teacherInput, Js)
    ensures SubjectModalTitle(subjects, Some(id)) == "Add New Subject"
    ensures SubjectSaveRequest(Some(id), nameInput, teacherInput).Some?
    ensures SubjectSaveRequest(Some(id), nameInput, teacherInput).value.verb == Put
  {
  }

  /** The titles of the other dialogs. */
  const ANNOUNCEMENT_TITLE := "New Announcement"
  const MATERIAL_TITLE := "Upload Material"
  const REMINDER_TITLE := "New Reminder"

  function AssignmentModalTitle(assignmentId: Option<int>): string {
    if Truthy(assignmentId) then "Edit Assignment" else "Create Assignment"
  }

  class Dashboard {
    /** The `subjects` global: the last list fetched from the service. */
    var subjects: seq<Subject>
    /** The `currentEditingId` global. */
    var editingId: Option<int>
    var modal: Modal

    constructor()
      ensures subjects == [] && editingId == None && modal == Closed
    {
      subjects := [];
      editingId := None;
      modal := Closed;
    }

    /** `loadSubjects`: a successful fetch replaces the cache; a failed one leaves it. */
    method LoadSubjects(fetched: Option<seq<Subject>>)
      modifies this`subjects
      ensures subjects == if fetched.Some? then fetched.value else old(subjects)
    {
      if fetched.Some? {
        subjects := fetched.value;
      }
    }

    /** `closeModal`: hides the dialog and always forgets the editing id. */
    method CloseModal()
      modifies this`modal, this`editingId
      ensures modal == Closed && editingId == None
    {
      modal := Closed;
      editingId := None;
    }

    /** `openSubjectModal(subjectId)`: the editing id is set to the argument whatever it is; the
        title says whether a cached subject is being edited. */
    method OpenSubjectModal(subjectId: Option<int>)
      modifies this`modal, this`editingId
      ensures editingId == subjectId
      ensures modal == Open(SubjectModalTitle(subjects, subjectId))
    {
      editingId := subjectId;
      var subject := if Truthy(subjectId) then FindSubject(subjects, subjectId.value) else None;
      modal := Open(if subject.Some? then "Edit Subject" else "Add New Subject");
    }

    /** `saveSubject`: with a blank trimmed field no request is sent and the dialog stays as it is;
        otherwise the request of `SubjectSaveRequest` is sent, and the dialog closes, clearing the
        editing id, only when the response is ok (a failed fetch counts as not ok). */
    method SaveSubject(nameInput: string, teacherInput: string, responseOk: bool) returns (sent: Option<SubjectRequest>)
      modifies this`modal, this`editingId
      ensures sent == SubjectSaveRequest(old(editingId), nameInput, teacherInput)
      ensures sent.Some? && responseOk ==> modal == Closed && editingId == None
      ensures sent.None? || !responseOk ==> modal == old(modal) && editingId == old(editingId)
    {
      var name := Trim(nameInput, Js);
      var teacher := Trim(teacherInput, Js);
      if name == "" || teacher == "" {
        return None;
      }
      if Truthy(editingId) {
        sent := Some(SubjectRequest(Put, "/subject/" + IntToString(editingId.value), name, teacher));
      } else {
        sent := Some(SubjectRequest(Post, "/subject", name, teacher));
      }
      if responseOk {
        CloseModal();
      }
    }

    /** `openAnnouncementModal`: refuses to open while no subject is cached. */
    method OpenAnnouncementModal() returns (didOpen: bool)
      modifies this`modal
      ensures didOpen <==> |subjects| > 0
      ensures modal == if didOpen then Open(ANNOUNCEMENT_TITLE) else old(modal)
    {
      if |subjects| == 0 {
        return false;
      }
      modal := Open(ANNOUNCEMENT_TITLE);
      return true;
    }

    /** `openMaterialModal`: refuses to open while no subject is cached. */
    method OpenMaterialModal() returns (didOpen: bool)
      modifies this`modal
      ensures didOpen <==> |subjects| > 0
      ensures modal == if didOpen then Open(MATERIAL_TITLE) else old(modal)
    {
      if |subjects| == 0 {
        return false;
      }
      modal := Open(MATERIAL_TITLE);
      return true;
    }

    /** `openReminderModal`: refuses to open while no subject is cached. */
    method OpenReminderModal() returns (didOpen: bool)
      modifies this`modal
      ensures didOpen <==> |subjects| > 0
      ensures modal == if didOpen then Open(REMINDER_TITLE) else old(modal)
    {
      if |subjects| == 0 {
        return false;
      }
      modal := Open(REMINDER_TITLE);
      return true;
    }

    /** `openAssignmentModal(assignmentId)`: refuses to open while no subject is cached, and only
        when it opens does it set the editing id. */
    method OpenAssignmentModal(assignmentId: Option<int>) returns (didOpen: bool)
      modifies this`modal, this`editingId
      ensures didOpen <==> |subjects| > 0
      ensures didOpen ==> editingId == assignmentId && modal == Open(AssignmentModalTitle(assignmentId))
      ensures !didOpen ==> editingId == old(editingId) && modal == old(modal)
    {
      if |subjects| == 0 {
        return false;
      }
      editingId := assignmentId;
      modal := Open(AssignmentModalTitle(assignmentId));
      return true;
    }
  }
}
