/** The request handler: dispatch on the intent name, the student-record
    lookup and the timetable lookup, each of which turns any raised error
    into a failed reply. */
module Handler {
  import opened Wrappers
  import opened Text
  import opened Store
  import opened Lex
  import opened Schedule
  import opened Report

  /** The key the student lookup always queries, whatever ID was given. */
  const FixedStudentKey := "RA2211028010179"

  const MissingIdMessage := WarningSign + " **Error:** Missing Student ID. Please provide a valid Student ID."
  const NotFoundMessage := WarningSign + " **Error:** Student ID not found. Please check and try again!"

  /** The reply text for an error raised inside a handler. */
  function SystemErrorMessage(error: string): string {
    CrossMark + " **System Error:** " + error + ". Please try again later."
  }

  /** The reply text when the requested day has no item. */
  function NoTimetableFor(day: string): string {
    WarningSign + " No timetable found for **" + day + "**."
  }

  /** The reply for the outcome of a handler's body: the state and message
      it produced, or, when it raised, a failed reply naming the error (the
      handlers' `except Exception` clause). */
  function Settle(req: Request, outcome: Result<(string, string), string>): (r: Response)
    ensures WellShaped(r) && r.IntentName() == req.intentName
    ensures outcome.Failure? ==> r.State() == Failed && r.Text() == SystemErrorMessage(outcome.error)
  {
    match outcome
    case Success((state, message)) => BuildLexResponse(req, state, message)
    case Failure(error) => BuildLexResponse(req, Failed, SystemErrorMessage(error))
  }

  // ---------------------------------------------------------------------
  // Student record lookup

  /** The body of `get_student_record` up to its `except` clause. */
  function StudentOutcome(req: Request, store: Tables): (r: Result<(string, string), string>)
    ensures r.Success? ==> r.value.0 == Fulfilled || r.value.0 == Failed
  {
    var id :- SlotInterpretedValue(req, "StudentID");
    if !Given(id) then Success((Failed, MissingIdMessage))
    else
      var item :- store.students.GetItem(FixedStudentKey);
      match item
      case None => Success((Failed, NotFoundMessage))
      case Some(rec) =>
        var message :- StudentMessage(rec);
        Success((Fulfilled, message))
  }

  /** `get_student_record`. */
  function GetStudentRecord(req: Request, store: Tables): (r: Response)
    ensures Final(r) && r.IntentName() == req.intentName
  {
    Settle(req, StudentOutcome(req, store))
  }

  /** Without a usable Student ID the reply is the missing-ID failure, and
      the store is never consulted: every store gives the same reply, even
      an unreachable one. */
  lemma StudentMissingId(req: Request, store: Tables, other: Tables)
    requires SlotInterpretedValue(req, "StudentID").Success?
    requires !Given(SlotInterpretedValue(req, "StudentID").value)
    ensures GetStudentRecord(req, store).State() == Failed
    ensures GetStudentRecord(req, store).Text() == MissingIdMessage
    ensures GetStudentRecord(req, store) == GetStudentRecord(req, other)
  {
  }

  /** Once an ID is given, the reply does not depend on which ID: any two
      requests for the same intent that carry a non-empty Student ID get the
      same reply from the same store. */
  lemma StudentIgnoresGivenId(req: Request, req': Request, store: Tables)
    requires req.intentName == req'.intentName
    requires SlotInterpretedValue(req, "StudentID").Success? && Given(SlotInterpretedValue(req, "StudentID").value)
    requires SlotInterpretedValue(req', "StudentID").Success? && Given(SlotInterpretedValue(req', "StudentID").value)
    ensures GetStudentRecord(req, store) == GetStudentRecord(req', store)
  {
  }

  /** The only thing the student lookup reads from the store is the answer
      to a lookup of the fixed key: two stores that answer it alike give the
      same reply. */
  lemma StudentReadsFixedKeyOnly(req: Request, store: Tables, other: Tables)
    requires store.students.GetItem(FixedStudentKey) == other.students.GetItem(FixedStudentKey)
    ensures GetStudentRecord(req, store) == GetStudentRecord(req, other)
  {
  }

  /** The failures of the student lookup: a `null` slot raises, an
      unreachable table raises, no item under the fixed key is the not-found
      failure, an item without `Name` raises. */
  lemma StudentFailures(req: Request, store: Tables)
    ensures var r := GetStudentRecord(req, store);
            var id := SlotInterpretedValue(req, "StudentID");
            && (id.Failure? ==>
                  r.State() == Failed && r.Text() == SystemErrorMessage("'NoneType' object has no attribute 'get'"))
            && (id.Success? && Given(id.value) && store.students.fault.Some? ==>
                  r.State() == Failed && r.Text() == SystemErrorMessage(store.students.fault.value))
            && (id.Success? && Given(id.value) && store.students.fault.None?
                && FixedStudentKey !in store.students.items ==>
                  r.State() == Failed && r.Text() == NotFoundMessage)
            && (id.Success? && Given(id.value) && store.students.fault.None?
                && FixedStudentKey in store.students.items
                && store.students.items[FixedStudentKey].name.None? ==>
                  r.State() == Failed && r.Text() == SystemErrorMessage("'Name'"))
  {
  }

  /** The student lookup succeeds exactly when an ID is given, the table is
      reachable and holds an item with a `Name` under the fixed key; the
      reply is then that student's message. */
  lemma StudentFound(req: Request, store: Tables)
    ensures var r := GetStudentRecord(req, store);
            var id := SlotInterpretedValue(req, "StudentID");
            var t := store.students;
            var found := && id.Success? && Given(id.value) && t.fault.None?
                          && FixedStudentKey in t.items && t.items[FixedStudentKey].name.Some?;
            && (r.State() == Fulfilled <==> found)
            && (found ==> r.Text() == Join(StudentLines(t.items[FixedStudentKey].name.value, t.items[FixedStudentKey]), "\n"))
  {
    var t := store.students;
    if FixedStudentKey in t.items && t.items[FixedStudentKey].name.Some? {
      StudentMessageJoinsLines(t.items[FixedStudentKey]);
    }
  }

  // ---------------------------------------------------------------------
  // Timetable lookup

  /** The body of `get_timetable` up to its `except` clause: the message.
      It raises only when reading the `Day` slot raises or the table is
      unreachable, and then with that error. */
  function TimetableOutcome(req: Request, store: Tables): (r: Result<string, string>)
    ensures r.Failure? <==> SlotInterpretedValue(req, "Day").Failure? || store.timetable.fault.Some?
    ensures r.Failure? && SlotInterpretedValue(req, "Day").Success? ==> r.error == store.timetable.fault.value
    ensures SlotInterpretedValue(req, "Day").Failure? ==> r.error == NoneGetError
  {
    var day :- SlotInterpretedValue(req, "Day");
    if Given(day) then
      var item :- store.timetable.GetItem(day.value);
      match item
      case Some(d) => Success(FormatDaySchedule(d))
      case None => Success(NoTimetableFor(day.value))
    else
      var days :- store.timetable.Scan();
      Success(FormatTimetable(days))
  }

  /** `get_timetable`: every message the body produces is fulfilled. */
  function GetTimetable(req: Request, store: Tables): (r: Response)
    ensures Final(r) && r.IntentName() == req.intentName
    ensures r.State() == Fulfilled <==> TimetableOutcome(req, store).Success?
  {
    match TimetableOutcome(req, store)
    case Success(message) => Settle(req, Success((Fulfilled, message)))
    case Failure(error) => Settle(req, Failure(error))
  }

  /** What the timetable lookup replies: a found day's schedule, the
      no-timetable message for a day that is not stored (still fulfilled),
      the whole scan's rendering when no day is given (an empty `Day`
      counts as none), and a failure naming the error when a slot is `null`
      or the table is unreachable. */
  lemma TimetableReplies(req: Request, store: Tables)
    ensures var r := GetTimetable(req, store);
            var day := SlotInterpretedValue(req, "Day");
            var t := store.timetable;
            && (day.Failure? ==>
                  r.State() == Failed && r.Text() == SystemErrorMessage("'NoneType' object has no attribute 'get'"))
            && (day.Success? && t.fault.Some? ==>
                  r.State() == Failed && r.Text() == SystemErrorMessage(t.fault.value))
            && (day.Success? && Given(day.value) && t.fault.None? && day.value.value in t.items ==>
                  r.State() == Fulfilled && r.Text() == FormatDaySchedule(t.items[day.value.value]))
            && (day.Success? && Given(day.value) && t.fault.None? && day.value.value !in t.items ==>
                  r.State() == Fulfilled && r.Text() == NoTimetableFor(day.value.value))
            && (day.Success? && !Given(day.value) && t.fault.None? ==>
                  r.State() == Fulfilled && r.Text() == FormatTimetable(InOrder(t.items, t.scanOrder)))
  {
  }

  /** The timetable lookup fails only on a raised error: a `null` slot or an
      unreachable table. */
  lemma TimetableFailsOnlyOnFault(req: Request, store: Tables)
    ensures GetTimetable(req, store).State() == Failed <==>
              SlotInterpretedValue(req, "Day").Failure? || store.timetable.fault.Some?
  {
  }

  // ---------------------------------------------------------------------
  // Dispatch

  const CheckAttendanceMarks := "CheckAttendanceMarks"
  const GetTimeTable := "GetTimeTable"

  /** `lambda_handler`: the reply always has the fixed envelope shape, a
      final state and the request's intent name; an intent other than the
      two known ones fails with a message naming it. */
  function LambdaHandler(req: Request, store: Tables): (r: Response)
    ensures Final(r) && r.IntentName() == req.intentName
    ensures req.intentName != CheckAttendanceMarks && req.intentName != GetTimeTable ==>
              r.State() == Failed && Contains(r.Text(), req.intentName)
  {
    if req.intentName == CheckAttendanceMarks then GetStudentRecord(req, store)
    else if req.intentName == GetTimeTable then GetTimetable(req, store)
    else UnknownIntentResponse(req.intentName)
  }

  /** The two known intents go to their handlers. */
  lemma DispatchRoutes(req: Request, store: Tables)
    ensures req.intentName == "CheckAttendanceMarks" ==> LambdaHandler(req, store) == GetStudentRecord(req, store)
    ensures req.intentName == "GetTimeTable" ==> LambdaHandler(req, store) == GetTimetable(req, store)
  {
  }
}
