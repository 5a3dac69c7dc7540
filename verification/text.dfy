/** String helpers with Python's meaning: `sep.join(parts)`, `s.split("\n")`
    and the `in` test on strings, and the symbols the replies share. */
module Text {

  const Calendar := "\U{1F4C5}"
  const WarningSign := "\U{26A0}\U{FE0F}"
  const CrossMark := "\U{274C}"

  /** True when `s` holds no line break. */
  predicate NoNewline(s: string) {
    '\n' !in s
  }

  /** True when every string of `lines` is a single line. */
  predicate AllSingleLines(lines: seq<string>) {
    forall i :: 0 <= i < |lines| ==> NoNewline(lines[i])
  }

  /** Single-line lists concatenate to a single-line list. */
  lemma SingleLinesAppend(a: seq<string>, b: seq<string>)
    requires AllSingleLines(a) && AllSingleLines(b)
    ensures AllSingleLines(a + b)
  {
  }

  /** Python's `sep.join(parts)`. */
  function Join(parts: seq<string>, sep: string): string {
    if |parts| == 0 then ""
    else if |parts| == 1 then parts[0]
    else parts[0] + sep + Join(parts[1..], sep)
  }

  /** Python's `s.split("\n")`: the pieces between line breaks, always at
      least one. */
  function SplitLines(s: string): (r: seq<string>)
    ensures |r| >= 1
    ensures AllSingleLines(r)
  {
    if |s| == 0 then [""]
    else
      var rest := SplitLines(s[1..]);
      if s[0] == '\n' then [""] + rest
      else [[s[0]] + rest[0]] + rest[1..]
  }

  /** True when `sub` occurs in `s` starting at index `i`. */
  predicate OccursAt(s: string, sub: string, i: int) {
    0 <= i <= |s| - |sub| && s[i..i + |sub|] == sub
  }

  /** Python's `sub in s`. */
  predicate Contains(s: string, sub: string) {
    exists i :: 0 <= i <= |s| && OccursAt(s, sub, i)
  }

  /** A string that has `sub` between some prefix and suffix contains it. */
  lemma ContainsInfix(p: string, sub: string, q: string)
    ensures Contains(p + sub + q, sub)
  {
    var s := p + sub + q;
    assert OccursAt(s, sub, |p|);
  }

  /** Joining a string in front of a non-empty list adds one separator. */
  lemma JoinCons(a: string, rest: seq<string>, sep: string)
    requires |rest| > 0
    ensures Join([a] + rest, sep) == a + sep + Join(rest, sep)
  {
  }

  /** Joining two non-empty lists puts one separator between the halves. */
  lemma {:induction false} JoinAppend(a: seq<string>, b: seq<string>, sep: string)
    requires |a| > 0 && |b| > 0
    ensures Join(a + b, sep) == Join(a, sep) + sep + Join(b, sep)
  {
    if |a| == 1 {
      assert (a + b)[1..] == b;
    } else {
      assert (a + b)[1..] == a[1..] + b;
      JoinAppend(a[1..], b, sep);
    }
  }

  /** Joining with a blank line between two non-empty lists of lines puts
      `"\n\n"` between their joined texts. */
  lemma JoinAroundBlank(a: seq<string>, b: seq<string>)
    requires |a| > 0 && |b| > 0
    ensures Join(a + [""] + b, "\n") == Join(a, "\n") + "\n\n" + Join(b, "\n")
  {
    var x, y := Join(a, "\n"), Join(b, "\n");
    JoinAppend(a, [""], "\n");
    JoinAppend(a + [""], b, "\n");
    assert Join(a + [""] + b, "\n") == (x + "\n" + "") + "\n" + y;
    BlankBetween(x, y);
  }

  /** Prepending a block to `"\n\n"`-joined blocks is prepending its lines
      and a blank line to the line-joined lines, when the joins agree on
      the rest. */
  lemma JoinBlockStep(x: string, blocks: seq<string>, a: seq<string>, lines: seq<string>)
    requires |blocks| > 0 && |a| > 0 && |lines| > 0
    requires x == Join(a, "\n") && Join(blocks, "\n\n") == Join(lines, "\n")
    ensures Join([x] + blocks, "\n\n") == Join(a + [""] + lines, "\n")
  {
    JoinCons(x, blocks, "\n\n");
    JoinAroundBlank(a, lines);
  }

  /** A line break, an empty line and a line break make `"\n\n"`. */
  lemma BlankBetween(x: string, y: string)
    ensures (x + "\n" + "") + "\n" + y == x + "\n\n" + y
  {
  }

  /** A single line splits into itself. */
  lemma {:induction false} SplitSingleLine(s: string)
    requires NoNewline(s)
    ensures SplitLines(s) == [s]
  {
    if |s| > 0 {
      assert s[0] != '\n' && NoNewline(s[1..]);
      SplitSingleLine(s[1..]);
      assert [s[0]] + s[1..] == s;
    }
  }

  /** Splitting `a + "\n" + b` yields the line `a` followed by the pieces of `b`. */
  lemma {:induction false} SplitAfterLine(a: string, b: string)
    requires NoNewline(a)
    ensures SplitLines(a + "\n" + b) == [a] + SplitLines(b)
  {
    var s := a + "\n" + b;
    if |a| == 0 {
      assert s[1..] == b;
    } else {
      assert s[1..] == a[1..] + "\n" + b;
      assert s[0] == a[0] != '\n' && NoNewline(a[1..]);
      SplitAfterLine(a[1..], b);
      assert [a[0]] + a[1..] == a;
    }
  }

  /** Splitting undoes joining with line breaks, for single-line pieces. */
  lemma {:induction false} SplitJoin(lines: seq<string>)
    requires |lines| > 0
    requires AllSingleLines(lines)
    ensures SplitLines(Join(lines, "\n")) == lines
  {
    if |lines| == 1 {
      SplitSingleLine(lines[0]);
    } else {
      SplitAfterLine(lines[0], Join(lines[1..], "\n"));
      SplitJoin(lines[1..]);
    }
  }

  /** Joining a non-empty list whose first string is non-empty gives a non-empty string. */
  lemma JoinNonEmpty(parts: seq<string>, sep: string)
    requires |parts| > 0 && parts[0] != ""
    ensures Join(parts, sep) != ""
  {
  }
}
