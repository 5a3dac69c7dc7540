/** The text of the reply for a found student record. */
module Report {
  import opened Wrappers
  import opened Text
  import opened Records

  /** The text of the `KeyError` raised when a student item has no `Name`. */
  const NameKeyError := "'Name'"

  const StudentHeading := "\U{1F4CC} Student Information"
  const NamePrefix := "\U{1F464} Name: "
  const IdPrefix := "\U{1F194} Student ID: "
  const AttendancePrefix := Calendar + " Attendance: "
  const PerformanceHeading := "\U{1F4DA} Academic Performance"
  const MarksHeading := "\U{1F4DD} Marks:"
  const MarksNone := "No marks available"
  const ClosingLine := "\U{2705} Keep up the good work!" + " Let me know if you need more info."

  /** The line for one subject's score. */
  function MarkLine(m: Mark): string {
    "\U{1F4D6} " + m.subject + ": " + m.score + "%"
  }

  /** The lines for the marks, one per subject in iteration order. */
  function MarkLines(marks: seq<Mark>): seq<string> {
    seq(|marks|, i requires 0 <= i < |marks| => MarkLine(marks[i]))
  }

  /** The marks joined into one block; empty exactly when there are no marks. */
  function MarksText(marks: seq<Mark>): (r: string)
    ensures r == "" <==> |marks| == 0
  {
    MarkLinesJoinEmpty(marks);
    Join(MarkLines(marks), "\n")
  }

  /** Mark lines join to the empty text exactly when there are no marks:
      every mark line starts with a symbol. */
  lemma MarkLinesJoinEmpty(marks: seq<Mark>)
    ensures Join(MarkLines(marks), "\n") == "" <==> |marks| == 0
  {
    if |marks| > 0 {
      JoinNonEmpty(MarkLines(marks), "\n");
    }
  }

  /** The message for a found student; the item's missing `Name` raises. */
  function StudentMessage(rec: StudentRecord): (r: Result<string, string>)
    ensures r.Failure? <==> rec.name.None?
    ensures r.Failure? ==> r.error == NameKeyError
  {
    var marks := MarksText(rec.marks.GetOr([]));
    match rec.name
    case None => Failure(NameKeyError)
    case Some(name) =>
      Success(
        StudentHeading + "\n"
        + NamePrefix + name + "\n"
        + IdPrefix + rec.studentId + "\n\n"
        + PerformanceHeading + "\n"
        + AttendancePrefix + rec.attendance.GetOr("N/A") + "%\n"
        + MarksHeading + "\n" + (if marks != "" then marks else MarksNone) + "\n\n"
        + ClosingLine)
  }

  /** The lines of a found student's message: a header block, one line per
      subject (or the no-marks line), a blank line and the closing line. */
  function StudentLines(name: string, rec: StudentRecord): seq<string> {
    HeadingLines(name, rec.studentId, rec.attendance.GetOr("N/A"))
    + MarksBlock(rec.marks.GetOr([]))
    + ["", ClosingLine]
  }

  /** The header block: heading, name, ID, a blank line, the performance
      heading, attendance and the marks heading. */
  function HeadingLines(name: string, id: string, attendance: string): seq<string> {
    [ StudentHeading, NamePrefix + name, IdPrefix + id, "",
      PerformanceHeading, AttendancePrefix + attendance + "%", MarksHeading ]
  }

  /** One line per subject, or the no-marks line. */
  function MarksBlock(marks: seq<Mark>): seq<string> {
    if |marks| == 0 then [MarksNone] else MarkLines(marks)
  }

  /** A found student's message is its lines joined by line breaks. */
  lemma StudentMessageJoinsLines(rec: StudentRecord)
    requires rec.name.Some?
    ensures StudentMessage(rec) == Success(Join(StudentLines(rec.name.value, rec), "\n"))
  {
    var name, id, att := rec.name.value, rec.studentId, rec.attendance.GetOr("N/A");
    var marks := rec.marks.GetOr([]);
    var body := if |marks| == 0 then [MarksNone] else MarkLines(marks);
    var m := if MarksText(marks) != "" then MarksText(marks) else MarksNone;
    assert Join(body, "\n") == m;
    JoinMessageShape(StudentHeading, NamePrefix + name, IdPrefix + id, PerformanceHeading,
                     AttendancePrefix + att + "%", MarksHeading, body, ClosingLine);
    RegroupMessage(StudentHeading, NamePrefix, name, IdPrefix, id, PerformanceHeading,
                   AttendancePrefix, att, MarksHeading, m, ClosingLine);
    assert StudentMessage(rec).value == Join(StudentLines(name, rec), "\n");
  }

  /** Regrouping the message's fields into lines. */
  lemma RegroupMessage(h: string, np: string, n: string, ip: string, i: string, p: string,
                       ap: string, a: string, mh: string, m: string, c: string)
    ensures h + "\n" + np + n + "\n" + ip + i + "\n\n" + p + "\n" + ap + a + "%\n" + mh + "\n" + m + "\n\n" + c
         == h + "\n" + (np + n) + "\n" + (ip + i) + "\n\n" + p + "\n" + (ap + a + "%") + "\n" + mh + "\n" + m + "\n\n" + c
  {
  }

  /** No attribute of the record holds a line break. */
  predicate SingleLineRecord(rec: StudentRecord) {
    && NoNewline(rec.name.GetOr(""))
    && NoNewline(rec.studentId)
    && NoNewline(rec.attendance.GetOr("N/A"))
    && forall i :: 0 <= i < |rec.marks.GetOr([])| ==>
         NoNewline(rec.marks.GetOr([])[i].subject) && NoNewline(rec.marks.GetOr([])[i].score)
  }

  /** Every line of a single-line record's message is a single line. */
  lemma StudentLinesSingle(rec: StudentRecord)
    requires rec.name.Some? && SingleLineRecord(rec)
    ensures AllSingleLines(StudentLines(rec.name.value, rec))
  {
    var head := HeadingLines(rec.name.value, rec.studentId, rec.attendance.GetOr("N/A"));
    var body := MarksBlock(rec.marks.GetOr([]));
    HeadingLinesSingle(rec.name.value, rec.studentId, rec.attendance.GetOr("N/A"));
    MarkLinesSingle(rec.marks.GetOr([]));
    assert AllSingleLines(body);
    SingleLinesAppend(head, body);
    ClosingLinesSingle();
    SingleLinesAppend(head + body, ["", ClosingLine]);
  }

  /** The blank line and the closing line are single lines. */
  lemma ClosingLinesSingle()
    ensures AllSingleLines(["", ClosingLine])
  {
  }

  /** The heading block of a student's message has single lines when its
      fields do. */
  lemma HeadingLinesSingle(name: string, id: string, attendance: string)
    requires NoNewline(name) && NoNewline(id) && NoNewline(attendance)
    ensures AllSingleLines(HeadingLines(name, id, attendance))
  {
  }

  /** Mark lines are single lines when subjects and scores are. */
  lemma MarkLinesSingle(marks: seq<Mark>)
    requires forall i :: 0 <= i < |marks| ==> NoNewline(marks[i].subject) && NoNewline(marks[i].score)
    ensures AllSingleLines(MarkLines(marks))
  {
  }

  /** The lines of a found student's message, position by position. */
  lemma StudentLinesAt(name: string, rec: StudentRecord)
    ensures
      var lines := StudentLines(name, rec);
      var marks := rec.marks.GetOr([]);
      var n := if |marks| == 0 then 1 else |marks|;
      && |lines| == 9 + n
      && lines[0] == StudentHeading
      && lines[1] == "\U{1F464} Name: " + name
      && lines[2] == "\U{1F194} Student ID: " + rec.studentId
      && lines[3] == ""
      && lines[4] == PerformanceHeading
      && lines[5] == "\U{1F4C5} Attendance: " + rec.attendance.GetOr("N/A") + "%"
      && lines[6] == MarksHeading
      && (|marks| == 0 ==> lines[7] == "No marks available")
      && (forall i :: 0 <= i < |marks| ==>
            lines[7 + i] == "\U{1F4D6} " + marks[i].subject + ": " + marks[i].score + "%")
      && lines[7 + n] == ""
      && lines[8 + n] == ClosingLine
  {
  }

  /** Splitting a found student's message into lines gives back its lines:
      the heading, the name, the ID, a blank line, the performance heading,
      the attendance (`N/A` when missing) followed by `%`, the marks heading,
      one line per subject in iteration order or the no-marks line, a blank
      line and the closing line. */
  lemma StudentMessageLines(rec: StudentRecord)
    requires rec.name.Some? && SingleLineRecord(rec)
    ensures
      var lines := SplitLines(StudentMessage(rec).value);
      var marks := rec.marks.GetOr([]);
      var n := if |marks| == 0 then 1 else |marks|;
      && lines == StudentLines(rec.name.value, rec)
      && |lines| == 9 + n
      && lines[0] == StudentHeading
      && lines[1] == "\U{1F464} Name: " + rec.name.value
      && lines[2] == "\U{1F194} Student ID: " + rec.studentId
      && lines[3] == ""
      && lines[4] == PerformanceHeading
      && lines[5] == "\U{1F4C5} Attendance: " + rec.attendance.GetOr("N/A") + "%"
      && lines[6] == MarksHeading
      && (|marks| == 0 ==> lines[7] == "No marks available")
      && (forall i :: 0 <= i < |marks| ==>
            lines[7 + i] == "\U{1F4D6} " + marks[i].subject + ": " + marks[i].score + "%")
      && lines[7 + n] == ""
      && lines[8 + n] == ClosingLine
  {
    StudentLinesAt(rec.name.value, rec);
    StudentMessageJoinsLines(rec);
    StudentLinesSingle(rec);
    SplitJoin(StudentLines(rec.name.value, rec));
  }

  /** Seven header lines, a non-empty block, a blank line and a closing
      line, joined by line breaks, in the grouping the message is written in. */
  lemma JoinMessageShape(l0: string, l1: string, l2: string, l4: string, l5: string, l6: string,
                         body: seq<string>, closing: string)
    requires |body| > 0
    ensures Join([l0, l1, l2, "", l4, l5, l6] + body + ["", closing], "\n")
         == l0 + "\n" + l1 + "\n" + l2 + "\n\n" + l4 + "\n" + l5 + "\n" + l6 + "\n"
            + Join(body, "\n") + "\n\n" + closing
  {
    var t7 := body + ([""] + [closing]);
    var t6 := [l6] + t7;
    var t5 := [l5] + t6;
    var t4 := [l4] + t5;
    var t3 := [""] + t4;
    var t2 := [l2] + t3;
    var t1 := [l1] + t2;
    RegroupLines(l0, l1, l2, l4, l5, l6, body, closing);
    JoinCons("", [closing], "\n");
    JoinAppend(body, [""] + [closing], "\n");
    JoinCons(l6, t7, "\n");
    JoinCons(l5, t6, "\n");
    JoinCons(l4, t5, "\n");
    JoinCons("", t4, "\n");
    JoinCons(l2, t3, "\n");
    JoinCons(l1, t2, "\n");
    JoinCons(l0, t1, "\n");
    var j := Join(body, "\n");
    assert Join([l0] + t1, "\n")
        == (l0 + "\n") + ((l1 + "\n") + ((l2 + "\n") + (("" + "\n") + ((l4 + "\n") + ((l5 + "\n")
           + ((l6 + "\n") + ((j + "\n") + (("" + "\n") + closing))))))));
    RegroupText(l0, l1, l2, l4, l5, l6, j, closing);
  }

  /** Regrouping the message's lines to the right. */
  lemma RegroupLines(l0: string, l1: string, l2: string, l4: string, l5: string, l6: string,
                     body: seq<string>, closing: string)
    ensures [l0, l1, l2, "", l4, l5, l6] + body + ["", closing]
         == [l0] + ([l1] + ([l2] + ([""] + ([l4] + ([l5] + ([l6] + (body + ([""] + [closing]))))))))
  {
  }

  /** Regrouping the message's text to the left. */
  lemma RegroupText(l0: string, l1: string, l2: string, l4: string, l5: string, l6: string,
                    j: string, closing: string)
    ensures (l0 + "\n") + ((l1 + "\n") + ((l2 + "\n") + (("" + "\n") + ((l4 + "\n") + ((l5 + "\n")
            + ((l6 + "\n") + ((j + "\n") + (("" + "\n") + closing))))))))
         == l0 + "\n" + l1 + "\n" + l2 + "\n\n" + l4 + "\n" + l5 + "\n" + l6 + "\n" + j + "\n\n" + closing
  {
  }
}
