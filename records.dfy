/** The six record kinds the service stores, one row each; ids are assigned by the store. A
    timestamp column the service fills itself is a millisecond time value, while `due_date` and
    `remind_at` are the strings the client sent. */
module Records {
  import opened Wrappers

  datatype Subject = Subject(id: int, name: string, teacher: string)

  datatype Announcement = Announcement(id: int, subjectId: int, title: string, content: string, datePosted: int)

  datatype Comment = Comment(id: int, announcementId: int, user: string, content: string, datePosted: int)

  datatype Material = Material(
    id: int, subjectId: int, title: string,
    description: Option<string>, fileUrl: Option<string>, dateUploaded: int)

  datatype Assignment = Assignment(id: int, subjectId: int, title: string, instructions: Option<string>, dueDate: string)

  datatype Reminder = Reminder(id: int, subjectId: int, message: string, remindAt: string)
}
