/** The items the two tables hold. Attribute values that Python would print
    through an f-string (attendance, scores, hours, course names) are kept as
    the text that printing produces. */
module Records {
  import opened Wrappers

  /** One subject's score in a student's `Marks` map. */
  datatype Mark = Mark(subject: string, score: string)

  /** An item of the `StudentRecords` table. `studentId` is the key attribute
      `Student_id` and so is always present; the other attributes may be
      missing from the item. `marks` lists the `Marks` map in its iteration
      order. */
  datatype StudentRecord = StudentRecord(
    studentId: string,
    name: Option<string>,
    attendance: Option<string>,
    marks: Option<seq<Mark>>)

  /** One class in a day's `Slots` list; both attributes may be missing. */
  datatype TimeSlot = TimeSlot(hour: Option<string>, course: Option<string>)

  /** An item of the `Timetable` table: the `Day` attribute and the ordered
      `Slots` list, either of which may be missing. */
  datatype DayItem = DayItem(day: Option<string>, slots: Option<seq<TimeSlot>>)
}
