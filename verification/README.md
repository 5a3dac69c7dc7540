# University chatbot handler — Dafny model

This project models the request handler of a university chatbot. The
handler runs behind a conversational-bot service. For each turn it receives
the recognised intent with its slots. It routes `CheckAttendanceMarks` to a
student-record lookup and `GetTimeTable` to a timetable lookup. Each lookup
reads a read-only table, renders the result as chat text and wraps that
text in the service's reply envelope. Any other intent gets a failed
envelope that names it.

Everything is modelled as pure functions over immutable values:

- `wrappers.dfy` (`Wrappers`): `Option`, `Result` (a raised exception is a
  `Failure` carrying the exception's text) and the three-way `Field`
  (a key that is absent, present with `null`, or present with a value).
- `text.dfy` (`Text`): Python's `sep.join`, `s.split("\n")` and `in` on
  strings, with the round trips between joining and splitting lines, and
  the symbols the replies share.
- `records.dfy` (`Records`): the items of the `StudentRecords` and
  `Timetable` tables.
- `store.dfy` (`Store`): a table as a map from key to item, an order for
  scans, and an optional fault that every call raises.
- `lex.dfy` (`Lex`): the incoming event, reading a slot through the chained
  `.get` calls, and the reply envelope (`build_lex_response`,
  `unknown_intent_response`).
- `schedule.dfy` (`Schedule`): `format_day_schedule` and `format_timetable`.
- `report.dfy` (`Report`): the message for a found student record.
- `handler.dfy` (`Handler`): `get_student_record`, `get_timetable` and
  `lambda_handler`.

The formatters are specified by an independent line-level description.
`DayLines`, `WeekLines` and `StudentLines` list the lines a reply should
have. The lemmas prove that each rendering is those lines joined by line
breaks. When no attribute holds a line break, splitting the rendering
gives those lines back. The handlers are specified branch by branch, as
the source's `if`s and `except` clauses lay them out.

Three behaviours of the handler are worth stating plainly:

- A class line is `hour - course`, with an ASCII hyphen.
- A `null` slot, a `null` slot `value` or a `null` slot map makes the next
  `.get` raise. The handler's `except` turns that into a failed
  system-error reply.
- The student lookup always queries the key `RA2211028010179`, whatever
  Student ID was given.

## Model

| member | source | states |
|---|---|---|
| Lex.SlotInterpretedValue | Lambda_function.py:25-26 | reading a slot raises exactly when the slot map, the named slot or its `value` is `null`, and then with the `NoneType` attribute error; it yields a value exactly when every step of the path is present, and that value is the slot's `interpretedValue` |
| Lex.SlotReadingCases | Lambda_function.py:25-26 | a filled slot reads as its text; an unbound name, a missing `slots` key, a slot without `value` and a missing or `null` `interpretedValue` read as nothing; a `null` slot map, slot or `value` raises; a filled empty string is read but not given |
| Lex.Given | Lambda_function.py:28 | no contract of its own: the truthiness test on the slot's text (`if not student_id`, `if day_requested`); what it decides is stated by `Handler.StudentMissingId`, `Handler.TimetableReplies` and `Lex.SlotReadingCases` |
| Lex.BuildLexResponse | Lambda_function.py:96-107 | the envelope closes the dialog, echoes the request's intent name and the given state, and carries exactly one plain-text message holding the given text |
| Lex.UnknownIntentResponse | Lambda_function.py:109-117 | the unknown-intent envelope has the same shape, state `Failed`, echoes the intent name and its message contains that name verbatim |
| Handler.LambdaHandler | Lambda_function.py:9-20 | every reply has the fixed envelope shape, a state that is `Fulfilled` or `Failed`, and the request's intent name; any intent other than the two known ones fails with a message containing its name |
| Handler.DispatchRoutes | Lambda_function.py:13-17 | `CheckAttendanceMarks` is answered by the student lookup and `GetTimeTable` by the timetable lookup |
| Handler.Settle | Lambda_function.py:52-53 | a raised error becomes a well-shaped `Failed` reply whose text is the system-error message embedding the error's text |
| Handler.StudentOutcome | Lambda_function.py:24-50 | the student lookup's body only ever produces the states `Fulfilled` or `Failed` |
| Handler.GetStudentRecord | Lambda_function.py:22-53 | the student reply is well shaped, final and echoes the intent name |
| Handler.StudentMissingId | Lambda_function.py:25-29 | without a non-empty Student ID the reply is `Failed` with the missing-ID message, and it is the same for every store, so no lookup takes place |
| Handler.StudentIgnoresGivenId | Lambda_function.py:28-31 | any two requests with non-empty Student IDs get the same reply from the same store |
| Handler.StudentReadsFixedKeyOnly | Lambda_function.py:31 | the reply depends on the store only through a lookup of the literal key `RA2211028010179` |
| Handler.StudentFailures | Lambda_function.py:49-53 | a `null` slot, an unreachable table and an item without `Name` give `Failed` with the system-error message for that error; no item under the key gives `Failed` with the not-found message |
| Handler.StudentFound | Lambda_function.py:33-47 | the reply is `Fulfilled` exactly when an ID is given, the table answers and holds an item with a name under the key; its text is then that student's lines joined by line breaks |
| Report.MarksText | Lambda_function.py:35 | the joined marks block is empty exactly when the student has no marks |
| Report.StudentMessage | Lambda_function.py:37-45 | rendering a student raises the `'Name'` key error exactly when the item has no `Name` |
| Report.StudentMessageJoinsLines | Lambda_function.py:35-45 | a found student's message is the heading block, the mark lines (or `No marks available`), a blank line and the closing line, joined by line breaks |
| Report.StudentMessageLines | Lambda_function.py:35-45 | split into lines, the message gives back the heading, name, ID, blank line, performance heading, attendance (`N/A` when missing) followed by `%`, marks heading, one line per subject in order or the no-marks line, a blank line and the closing line |
| Handler.TimetableOutcome | Lambda_function.py:57-72 | the timetable lookup's body raises exactly when reading `Day` raises or the table is unreachable, and then with that error |
| Handler.GetTimetable | Lambda_function.py:55-75 | the timetable reply is well shaped, final, echoes the intent name, and is `Fulfilled` exactly when the lookup's body raised nothing |
| Handler.TimetableReplies | Lambda_function.py:59-75 | a found day gives its schedule; a day not stored gives the no-timetable message, still `Fulfilled`; a missing or empty `Day` gives the rendering of the whole scan; a `null` slot or unreachable table gives `Failed` with the system-error message |
| Handler.TimetableFailsOnlyOnFault | Lambda_function.py:57-75 | the timetable reply is `Failed` exactly when reading the slot raises or the table is unreachable |
| Store.Table.GetItem | Lambda_function.py:31 | a lookup raises exactly when the table is unreachable, with its error; otherwise it finds an item exactly when the key is stored, and that item is the stored one |
| Store.Table.Scan | Lambda_function.py:68-69 | a scan raises exactly when the table is unreachable, with its error; otherwise it holds every stored item whose key the scan order lists |
| Store.InOrder | Lambda_function.py:68-69 | a scan lists no more items than the scan order lists keys, contains every stored item whose key is listed, and when every listed key is stored lists exactly those items in order |
| Store.ScanReturnsEveryItem | Lambda_function.py:68-69 | a scan of a reachable table whose scan order lists exactly its keys returns every stored item in scan order |
| Schedule.FormatDaySchedule | Lambda_function.py:85-94 | a day's rendering is its lines (the no-classes line, or the header and one line per class) joined by line breaks |
| Schedule.DayScheduleLines | Lambda_function.py:85-94 | split into lines, a day with no classes is the single no-classes line; otherwise it is the header and then one `hour - course` line per class in order, with the defaults `Unknown Day`, `Unknown Time` and `Unknown Course` |
| Schedule.FormatTimetable | Lambda_function.py:77-83 | the whole-scan rendering is every day's lines in order with one blank line between days, joined by line breaks; no items give the no-data message |
| Schedule.RenderingsJoinWeekLines | Lambda_function.py:82-83 | joining the days' renderings with `"\n\n"` is joining the week's lines with line breaks |
| Schedule.WeekBlankLines | Lambda_function.py:82-83 | the week's lines hold exactly one blank line fewer than there are days |
| Schedule.TimetableLines | Lambda_function.py:77-83 | split into lines, the whole-scan rendering gives every day's lines in scan order with exactly one blank line between consecutive days |
| Schedule.TimetableAppend | Lambda_function.py:82-83 | adding a day to a non-empty scan appends `"\n\n"` and that day's rendering |
| Schedule.TimetableSmall | Lambda_function.py:79-83 | an empty scan renders as the fixed no-data message and a one-item scan renders as that day alone |

## Left out

- The creation of the DynamoDB resource and tables (Lambda_function.py:1-7)
  and the real `get_item` and `scan` calls (Lambda_function.py:31, 62, 68). They are foreign I/O. A table
  is an in-memory `Store.Table`, and its `fault` is the text of whatever
  error the call raised.
- The uncaught `KeyError` when the event has no `sessionState.intent.name`.
  This is malformed input. A `Request` always carries an intent name.
- How Python prints numbers and `Decimal`s inside f-strings. Attendance,
  scores, hours and course names are kept as the text they print as.
- Attribute values of the wrong type: a `null` or non-map `Marks`, a non-list
  `Slots`, a class entry that is not a map, or a non-string `interpretedValue`.
  A missing attribute is modelled; these are not.
- Scan pagination and size limits, and concurrency across invocations. These
  belong to the hosting environment, not to the handler's logic.
- Records.StudentRecord: `Marks` is a list of subject/score pairs in the map's
  iteration order. Distinct subjects are not required, because rendering does
  not depend on it.
- The line-level lemmas (`Schedule.DayScheduleLines`, `Schedule.TimetableLines`,
  `Report.StudentMessageLines`) assume that no attribute holds a line break.
  Without that assumption, the contracts of `Schedule.FormatDaySchedule`,
  `Schedule.FormatTimetable` and `Report.StudentMessageJoinsLines` still fix
  the exact text.
