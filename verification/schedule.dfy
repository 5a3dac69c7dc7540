/** Rendering of timetable items as chat text: one day (`format_day_schedule`)
    and a whole scan (`format_timetable`). */
module Schedule {
  import opened Text
  import opened Records

  const AlarmClock := "\U{23F0}"

  /** The reply when a scan returns no items. */
  const NoTimetableData := WarningSign + " No timetable data available."

  /** The day name shown for an item, `Unknown Day` when it has none. */
  function DayName(d: DayItem): string {
    d.day.GetOr("Unknown Day")
  }

  /** The classes of an item, none when `Slots` is missing. */
  function DaySlots(d: DayItem): seq<TimeSlot> {
    d.slots.GetOr([])
  }

  /** The line for one class: `hour - course`, each with its default. */
  function SlotLine(s: TimeSlot): string {
    AlarmClock + " " + s.hour.GetOr("Unknown Time") + " - " + s.course.GetOr("Unknown Course")
  }

  /** The lines for a list of classes, one per class. */
  function SlotLines(slots: seq<TimeSlot>): seq<string> {
    seq(|slots|, i requires 0 <= i < |slots| => SlotLine(slots[i]))
  }

  /** The header line of a day that has classes. */
  function DayHeader(dayName: string): string {
    Calendar + " **" + dayName + "**"
  }

  /** The only line of a day that has no classes. */
  function NoClassesLine(dayName: string): string {
    Calendar + " **" + dayName + "**: No scheduled classes."
  }

  /** `format_day_schedule`: the day's lines (see `DayLines`) joined by
      line breaks. */
  function FormatDaySchedule(d: DayItem): (r: string)
    ensures r == Join(DayLines(d), "\n")
  {
    var slots := DaySlots(d);
    if |slots| == 0 then NoClassesLine(DayName(d))
    else DayHeader(DayName(d)) + "\n" + Join(SlotLines(slots), "\n")
  }

  /** The renderings of the items, in order. */
  function Renderings(days: seq<DayItem>): seq<string> {
    seq(|days|, i requires 0 <= i < |days| => FormatDaySchedule(days[i]))
  }

  /** `format_timetable`: the week's lines (see `WeekLines`) joined by line
      breaks, so the `"\n\n"` between two days is exactly one blank line. */
  function FormatTimetable(days: seq<DayItem>): (r: string)
    ensures r == Join(WeekLines(days), "\n")
  {
    if |days| == 0 then NoTimetableData
    else RenderingsJoinWeekLines(days); Join(Renderings(days), "\n\n")
  }

  // ---------------------------------------------------------------------
  // The rendered text, line by line

  /** No attribute of the item holds a line break. */
  predicate SingleLineItem(d: DayItem) {
    && NoNewline(DayName(d))
    && forall i :: 0 <= i < |DaySlots(d)| ==>
         NoNewline(DaySlots(d)[i].hour.GetOr("")) && NoNewline(DaySlots(d)[i].course.GetOr(""))
  }

  /** No attribute of any item holds a line break. */
  predicate SingleLineItems(days: seq<DayItem>) {
    forall i :: 0 <= i < |days| ==> SingleLineItem(days[i])
  }

  /** The lines one day is shown as: the no-classes line, or the header
      followed by one line per class in order. */
  function DayLines(d: DayItem): (r: seq<string>)
    ensures |r| > 0
  {
    if |DaySlots(d)| == 0 then [NoClassesLine(DayName(d))]
    else [DayHeader(DayName(d))] + SlotLines(DaySlots(d))
  }

  /** The lines a whole scan is shown as: each day's lines, with one blank
      line between consecutive days. */
  function WeekLines(days: seq<DayItem>): (r: seq<string>)
    ensures |r| > 0
  {
    if |days| == 0 then [NoTimetableData]
    else if |days| == 1 then DayLines(days[0])
    else DayLines(days[0]) + [""] + WeekLines(days[1..])
  }

  /** No line of a day's rendering is blank: each starts with a symbol. */
  lemma DayLinesNotBlank(d: DayItem)
    ensures "" !in DayLines(d)
  {
  }

  /** Every line of a single-line item is a single line. */
  lemma DayLinesSingle(d: DayItem)
    requires SingleLineItem(d)
    ensures AllSingleLines(DayLines(d))
  {
  }

  /** Splitting a day's rendering into lines gives back the no-classes line
      when the item has no classes, and otherwise the header and then one
      line per class, in the item's order, with the defaults `Unknown Day`, `Unknown Time`
      and `Unknown Course`. */
  lemma DayScheduleLines(d: DayItem)
    requires SingleLineItem(d)
    ensures var lines := SplitLines(FormatDaySchedule(d));
            var slots := d.slots.GetOr([]);
            var name := d.day.GetOr("Unknown Day");
            if |slots| == 0 then
              lines == [Calendar + " **" + name + "**: No scheduled classes."]
            else
              && |lines| == |slots| + 1
              && lines[0] == Calendar + " **" + name + "**"
              && forall i :: 0 <= i < |slots| ==>
                   lines[i + 1] == AlarmClock + " " + slots[i].hour.GetOr("Unknown Time")
                                   + " - " + slots[i].course.GetOr("Unknown Course")
  {
    DayLinesSingle(d);
    SplitJoin(DayLines(d));
  }

  /** Joining the renderings of a non-empty scan with `"\n\n"` gives the
      week's lines joined by line breaks. */
  lemma {:induction false} RenderingsJoinWeekLines(days: seq<DayItem>)
    requires |days| > 0
    ensures Join(Renderings(days), "\n\n") == Join(WeekLines(days), "\n")
  {
    if |days| > 1 {
      var rest := days[1..];
      RenderingsJoinWeekLines(rest);
      RenderingsCons(days);
      JoinBlockStep(FormatDaySchedule(days[0]), Renderings(rest), DayLines(days[0]), WeekLines(rest));
    }
  }

  /** The renderings of a scan are the first day's rendering followed by
      the renderings of the rest. */
  lemma RenderingsCons(days: seq<DayItem>)
    requires |days| > 0
    ensures Renderings(days) == [FormatDaySchedule(days[0])] + Renderings(days[1..])
  {
  }

  /** A scan with at least one item has exactly one blank line fewer than it
      has items. */
  lemma {:induction false} WeekBlankLines(days: seq<DayItem>)
    requires |days| > 0
    ensures multiset(WeekLines(days))[""] == |days| - 1
  {
    DayLinesNotBlank(days[0]);
    if |days| > 1 {
      WeekBlankLines(days[1..]);
    }
  }

  /** Splitting the whole-scan rendering into lines gives every day's lines,
      in scan order, separated by single blank lines; there is exactly one
      blank line fewer than there are days. */
  lemma TimetableLines(days: seq<DayItem>)
    requires |days| > 0 && SingleLineItems(days)
    ensures SplitLines(FormatTimetable(days)) == WeekLines(days)
    ensures multiset(SplitLines(FormatTimetable(days)))[""] == |days| - 1
  {
    WeekLinesSingle(days);
    SplitJoin(WeekLines(days));
    WeekBlankLines(days);
  }

  /** Every line of the week's lines is a single line. */
  lemma {:induction false} WeekLinesSingle(days: seq<DayItem>)
    requires |days| > 0 && SingleLineItems(days)
    ensures AllSingleLines(WeekLines(days))
  {
    DayLinesSingle(days[0]);
    if |days| > 1 {
      WeekLinesSingle(days[1..]);
    }
  }

  /** Appending an item appends a blank line and that day's rendering: the
      days appear in scan order, separated by `"\n\n"`. */
  lemma TimetableAppend(days: seq<DayItem>, d: DayItem)
    requires |days| > 0
    ensures FormatTimetable(days + [d]) == FormatTimetable(days) + "\n\n" + FormatDaySchedule(d)
  {
    assert Renderings(days + [d]) == Renderings(days) + [FormatDaySchedule(d)];
    JoinAppend(Renderings(days), [FormatDaySchedule(d)], "\n\n");
  }

  /** One item renders exactly as that day does; no items render as the
      fixed no-data message. */
  lemma TimetableSmall(d: DayItem)
    ensures FormatTimetable([]) == NoTimetableData
    ensures FormatTimetable([d]) == FormatDaySchedule(d)
  {
  }
}
