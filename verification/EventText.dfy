/** Streams as an upstream writes them, field by field, against the two readers: what is written is what is read. */
module EventText {
  import opened Text
  import opened Wrappers
  import opened Sse
  import Machine
  import Streams

  /** A line of an event: a text after `data:` and, if spaced, one space; or any other field or comment. */
  datatype Field = Data(text: string, spaced: bool) | Other(line: string)

  predicate OneLine(s: string) {
    '\n' !in s && '\r' !in s
  }

  /** A text that starts with a space needs the space before it. */
  predicate Writable(f: Field) {
    match f
    case Data(text, spaced) => OneLine(text) && (spaced || text == "" || text[0] != ' ')
    case Other(line) => OneLine(line) && line != "" && !("data:" <= line)
  }

  function LineOf(f: Field): string {
    match f
    case Data(text, spaced) => if spaced then "data: " + text else "data:" + text
    case Other(line) => line
  }

  function LinesOf(fields: seq<Field>): (r: seq<string>)
    ensures |r| == |fields|
  {
    if fields == [] then [] else [LineOf(fields[0])] + LinesOf(fields[1..])
  }

  /** The texts of an event. */
  function TextsOf(fields: seq<Field>): seq<string> {
    if fields == [] then []
    else (if fields[0].Data? then [fields[0].text] else []) + TextsOf(fields[1..])
  }

  predicate Event(fields: seq<Field>) {
    fields != [] && forall i | 0 <= i < |fields| :: Writable(fields[i])
  }

  predicate Eol(eol: string) {
    eol == "\n" || eol == "\r\n"
  }

  /** The lines of an event, each with its end. */
  function LinesText(lines: seq<string>, eol: string): string {
    if lines == [] then "" else lines[0] + eol + LinesText(lines[1..], eol)
  }

  /** The events of a stream, each closed by a blank line. */
  function StreamText(events: seq<seq<Field>>, eol: string): string {
    if events == [] then "" else LinesText(LinesOf(events[0]), eol) + eol + StreamText(events[1..], eol)
  }

  // ----- a line -----

  lemma SpacedLine(text: string)
    ensures LineData("data: " + text) == [text]
  {
    var line := "data: " + text;
    assert line[..5] == "data:";
    assert line[5..] == " " + text;
    assert (" " + text)[1..] == text;
  }

  lemma PlainLine(text: string)
    requires text == "" || text[0] != ' '
    ensures LineData("data:" + text) == [text]
  {
    var line := "data:" + text;
    assert line[..5] == "data:" && line[5..] == text;
    assert " "[0] == ' ';
  }

  lemma LineIsRead(f: Field)
    requires Writable(f)
    ensures LineData(LineOf(f)) == if f.Data? then [f.text] else []
    ensures OneLine(LineOf(f)) && LineOf(f) != ""
  {
    match f
    case Data(text, spaced) => if spaced { SpacedLine(text); } else { PlainLine(text); }
    case Other(_) =>
  }

  lemma {:induction false} TextsAreRead(fields: seq<Field>)
    requires forall i :: 0 <= i < |fields| ==> Writable(fields[i])
    ensures DataOf(LinesOf(fields)) == TextsOf(fields)
  {
    hide Writable, LineData, LineOf;
    if fields != [] {
      LineIsRead(fields[0]);
      TextsAreRead(fields[1..]);
      assert LinesOf(fields)[1..] == LinesOf(fields[1..]);
    }
  }

  // ----- the frame of an event -----

  predicate Solid(lines: seq<string>) {
    forall i | 0 <= i < |lines| :: OneLine(lines[i]) && lines[i] != ""
  }

  lemma {:induction false} LinesAreSolid(fields: seq<Field>)
    requires forall i :: 0 <= i < |fields| ==> Writable(fields[i])
    ensures Solid(LinesOf(fields))
  {
    hide Writable, LineOf, OneLine, LineData;
    if fields != [] {
      LineIsRead(fields[0]);
      LinesAreSolid(fields[1..]);
      var rest := LinesOf(fields[1..]);
      assert forall i :: 1 <= i < |LinesOf(fields)| ==> LinesOf(fields)[i] == rest[i - 1];
    }
  }

  lemma {:induction false} LineAlone(s: string)
    requires '\n' !in s
    ensures SplitLines(s) == [s]
  {
    if s != "" {
      LineAlone(s[1..]);
      assert [s[1..]][1..] == [] && [s[0]] + s[1..] == s;
    }
  }

  /** Joining and splitting lines are inverse. */
  lemma {:induction false} JoinedSplits(lines: seq<string>)
    requires lines != [] && Solid(lines)
    ensures SplitLines(JoinLines(lines)) == lines
  {
    hide SplitLines;
    assert OneLine(lines[0]);
    LineAlone(lines[0]);
    if |lines| > 1 {
      assert Solid(lines[1..]) by { assert forall i :: 0 <= i < |lines[1..]| ==> lines[1..][i] == lines[i + 1]; }
      JoinedSplits(lines[1..]);
      SplitLinesAppend(lines[0], JoinLines(lines[1..]));
    }
  }

  lemma JoinedEndsLine(lines: seq<string>)
    requires lines != []
    ensures LinesText(lines, "\n") == JoinLines(lines) + "\n"
    decreases lines
  {
    if |lines| > 1 {
      JoinedEndsLine(lines[1..]);
      Assoc(lines[0], "\n", JoinLines(lines[1..]));
      Assoc(lines[0] + "\n", JoinLines(lines[1..]), "\n");
    } else {
      assert LinesText(lines[1..], "\n") == "" && lines[0] + "\n" + "" == lines[0] + "\n";
    }
  }

  /** A frame of solid lines has no blank line in it and does not end in LF. */
  lemma {:induction false} FrameIsSolid(lines: seq<string>)
    requires lines != [] && Solid(lines)
    ensures var f := JoinLines(lines);
            && f != "" && f[0] != '\n' && f[|f| - 1] != '\n' && forall i :: !BlankAt(f, i)
  {
    assert OneLine(lines[0]) && lines[0] != "";
    var f, line := JoinLines(lines), lines[0];
    assert line[0] in line && line[|line| - 1] in line;
    if |lines| == 1 {
      forall i ensures !BlankAt(f, i) { assert 0 <= i < |f| ==> f[i] in f; }
    } else {
      assert Solid(lines[1..]) by { assert forall i :: 0 <= i < |lines[1..]| ==> lines[1..][i] == lines[i + 1]; }
      FrameIsSolid(lines[1..]);
      BlankInJoined(line, JoinLines(lines[1..]));
    }
  }

  lemma BlankInJoined(line: string, rest: string)
    requires '\n' !in line && line != "" && rest != "" && rest[0] != '\n' && forall i :: !BlankAt(rest, i)
    ensures forall i :: !BlankAt(line + "\n" + rest, i)
  {
    var f := line + "\n" + rest;
    forall i ensures !BlankAt(f, i) {
      if 0 <= i < |line| {
        assert f[i] == line[i] && line[i] in line;
      } else if i == |line| {
        assert f[i + 1] == rest[0];
      } else if |line| < i < |f| - 1 {
        assert f[i] == rest[i - |line| - 1] && f[i + 1] == rest[i - |line|];
        assert !BlankAt(rest, i - |line| - 1);
      }
    }
  }

  function FrameOf(fields: seq<Field>): string {
    JoinLines(LinesOf(fields))
  }

  lemma FrameBreaks(f: string, rest: string)
    requires f != "" && f[|f| - 1] != '\n' && forall i :: !BlankAt(f, i)
    ensures Break(f + "\n\n" + rest) == Some(|f|)
  {
    var t := f + "\n\n" + rest;
    assert BlankAt(t, |f|);
    forall i | i < |f| ensures !BlankAt(t, i) {
      if 0 <= i < |f| - 1 {
        assert t[i] == f[i] && t[i + 1] == f[i + 1];
        assert !BlankAt(f, i);
      } else if i == |f| - 1 {
        assert t[i] == f[i];
      }
    }
    assert BlankAt(t, Break(t).value);
  }

  /** An event has as payload exactly its texts, joined by LF; other fields and comments add nothing. */
  lemma EventIsRead(fields: seq<Field>)
    requires Event(fields)
    ensures DataOf(SplitLines(FrameOf(fields))) == TextsOf(fields)
    ensures Payload(FrameOf(fields)) == JoinLines(TextsOf(fields))
  {
    hide Writable, SplitLines, JoinLines;
    LinesAreSolid(fields);
    JoinedSplits(LinesOf(fields));
    TextsAreRead(fields);
  }

  // ----- a stream -----

  function FramesOf(events: seq<seq<Field>>): (r: seq<string>)
    ensures |r| == |events| && forall i :: 0 <= i < |events| ==> r[i] == FrameOf(events[i])
  {
    if events == [] then [] else [FrameOf(events[0])] + FramesOf(events[1..])
  }

  predicate Events(events: seq<seq<Field>>) {
    forall i | 0 <= i < |events| :: Event(events[i])
  }

  lemma FirstEvent(events: seq<seq<Field>>)
    requires events != [] && Events(events)
    ensures Event(events[0]) && Events(events[1..])
  {
    hide Event;
    assert forall i :: 0 <= i < |events[1..]| ==> events[1..][i] == events[i + 1];
  }

  lemma {:induction false} FramesAreCut(events: seq<seq<Field>>)
    requires Events(events)
    ensures Frames(StreamText(events, "\n")) == Cut(FramesOf(events), "")
  {
    hide Frames, JoinLines, Event;
    if events == [] {
      NothingIsCut();
    } else {
      FirstEvent(events);
      var f, rest := FrameOf(events[0]), StreamText(events[1..], "\n");
      FramesAreCut(events[1..]);
      EventFrame(events[0]);
      FrameBreaks(f, rest);
      FrameFirst(f, rest);
      assert f + "\n" + "\n" + rest == f + "\n\n" + rest;
    }
  }

  lemma NothingIsCut()
    ensures Frames("") == Cut([], "")
  {
  }

  lemma EventFrame(fields: seq<Field>)
    requires Event(fields)
    ensures var f := FrameOf(fields);
            && LinesText(LinesOf(fields), "\n") == f + "\n"
            && f != "" && f[|f| - 1] != '\n' && forall i :: !BlankAt(f, i)
  {
    hide JoinLines, Writable;
    LinesAreSolid(fields);
    FrameIsSolid(LinesOf(fields));
    JoinedEndsLine(LinesOf(fields));
  }

  // ----- either end of line -----

  lemma LineNormal(line: string, eol: string, rest: string)
    requires OneLine(line) && Eol(eol)
    ensures Normalize(line + eol + rest) == line + "\n" + Normalize(rest)
  {
    hide Normalize;
    forall k ensures !PairAt(line, k) { assert 0 <= k < |line| ==> line[k] in line; }
    NoPairIsNormal(line);
    EolNormal(eol);
    assert line != "" ==> line[|line| - 1] in line;
    NormalizeSplits(line, eol);
    NormalizeSplits(line + eol, rest);
  }

  lemma EolNormal(eol: string)
    requires Eol(eol)
    ensures Normalize(eol) == "\n"
  {
    assert "\n"[1..] == "" && "\r\n"[2..] == "";
  }

  lemma {:induction false} LinesNormal(lines: seq<string>, eol: string, rest: string)
    requires Solid(lines) && Eol(eol)
    ensures Normalize(LinesText(lines, eol) + eol + rest) == LinesText(lines, "\n") + "\n" + Normalize(rest)
  {
    hide Normalize, Eol;
    if lines == [] {
      assert LinesText(lines, eol) + eol + rest == "" + eol + rest;
      LineNormal("", eol, rest);
    } else {
      assert OneLine(lines[0]);
      assert Solid(lines[1..]) by { assert forall i :: 0 <= i < |lines[1..]| ==> lines[1..][i] == lines[i + 1]; }
      var more := LinesText(lines[1..], eol) + eol + rest;
      LinesNormal(lines[1..], eol, rest);
      LineNormal(lines[0], eol, more);
      assert LinesText(lines, eol) + eol + rest == lines[0] + eol + more;
      assert LinesText(lines, "\n") + "\n" + Normalize(rest)
          == lines[0] + "\n" + (LinesText(lines[1..], "\n") + "\n" + Normalize(rest));
    }
  }

  /** CR LF and LF as ends of lines are read alike. */
  lemma {:induction false} StreamNormal(events: seq<seq<Field>>, eol: string)
    requires Events(events) && Eol(eol)
    ensures Normalize(StreamText(events, eol)) == StreamText(events, "\n")
  {
    hide Event, Eol, LinesText, LinesOf;
    if events == [] {
      NormalizeNothing();
    } else {
      FirstEvent(events);
      StreamNormal(events[1..], eol);
      EventSolid(events[0]);
      LinesNormal(LinesOf(events[0]), eol, StreamText(events[1..], eol));
    }
  }

  lemma EventSolid(fields: seq<Field>)
    requires Event(fields)
    ensures Solid(LinesOf(fields))
  {
    LinesAreSolid(fields);
  }

  /** The chunk reader reads a written stream back: one frame for each event, with exactly its texts as payload, and
      nothing left over. */
  lemma WrittenIsRead(events: seq<seq<Field>>, eol: string)
    requires Events(events) && Eol(eol)
    ensures var whole := Whole(StreamText(events, eol));
            && |whole.frames| == |events| && whole.carry == ""
            && forall i | 0 <= i < |events| :: Payload(whole.frames[i]) == JoinLines(TextsOf(events[i]))
  {
    hide Frames, Normalize, Event, Payload, JoinLines, StreamText, FrameOf, Eol;
    StreamNormal(events, eol);
    FramesAreCut(events);
    forall i | 0 <= i < |events|
      ensures Payload(FrameOf(events[i])) == JoinLines(TextsOf(events[i]))
    {
      EventIsRead(events[i]);
    }
  }

  /** A failing event is seen, in whatever form it is written. */
  lemma WrittenFailureFails(classify: Machine.Classifier, events: seq<seq<Field>>, eol: string)
    requires Events(events) && Eol(eol)
    ensures Streams.FrameFails(classify, StreamText(events, eol))
       <==> exists i | 0 <= i < |events| :: classify(JoinLines(TextsOf(events[i]))).Some?
  {
    hide Whole, Event, Payload, JoinLines, StreamText, TextsOf, Eol;
    WrittenIsRead(events, eol);
  }

  // ----- the line reader -----

  function AllTexts(events: seq<seq<Field>>): seq<seq<string>> {
    if events == [] then [] else [TextsOf(events[0])] + AllTexts(events[1..])
  }

  lemma {:induction false} FrameTexts(events: seq<seq<Field>>)
    requires Events(events)
    ensures FrameEvents(FramesOf(events)) == AllTexts(events)
  {
    hide Event, FrameOf, SplitLines, DataOf;
    if events != [] {
      FirstEvent(events);
      EventIsRead(events[0]);
      FrameTexts(events[1..]);
      assert FramesOf(events)[1..] == FramesOf(events[1..]);
    }
  }

  /** A written stream ends in a blank line. */
  lemma {:induction false} StreamEnds(events: seq<seq<Field>>)
    requires Events(events) && events != []
    ensures var t := StreamText(events, "\n"); |t| >= 2 && t[|t| - 2..] == "\n\n"
  {
    hide Event, LinesText;
    FirstEvent(events);
    EventFrame(events[0]);
    if |events| > 1 {
      StreamEnds(events[1..]);
      var first, rest := LinesText(LinesOf(events[0]), "\n") + "\n", StreamText(events[1..], "\n");
      assert (first + rest)[|first + rest| - 2..] == rest[|rest| - 2..];
    } else {
      var f := FrameOf(events[0]);
      assert StreamText(events[1..], "\n") == "";
      assert f + "\n" + "\n" + "" == f + "\n\n";
    }
  }

  lemma EndsInLF(events: seq<seq<Field>>, eol: string)
    requires Eol(eol)
    ensures DropCR(StreamText(events, eol)) == StreamText(events, eol)
  {
    if events != [] {
      LastIsLF(events, eol);
    }
  }

  lemma {:induction false} LastIsLF(events: seq<seq<Field>>, eol: string)
    requires events != [] && Eol(eol)
    ensures var t := StreamText(events, eol); t != "" && t[|t| - 1] == '\n'
  {
    hide LinesText, LinesOf;
    if |events| > 1 {
      LastIsLF(events[1..], eol);
    } else {
      assert StreamText(events[1..], eol) == "";
    }
  }

  /** `probeCompleted` decides on a written body by the first terminal event among those that carry data, as it was
      written. */
  lemma WrittenDecides(json: Json, events: seq<seq<Field>>, eol: string)
    requires json.terminal("").None? && Events(events) && events != [] && Eol(eol)
    requires forall line :: line in RawLines(StreamText(events, eol)) ==> |line| < LINE_LIMIT
    ensures Completed(json, RawLines(StreamText(events, eol)), []) == Verdict(json, Payloads(AllTexts(events)))
  {
    hide Frames, Normalize, Event, SplitLines, DataOf, Payloads, Verdict, Completed, StreamText, FrameOf, AllTexts, Eol,
      RawLines, FrameEvents, DropCR;
    var body := StreamText(events, eol);
    EndsInLF(events, eol);
    StreamNormal(events, eol);
    StreamEnds(events);
    FramesAreCut(events);
    FrameTexts(events);
    CompletedByFrames(json, body);
  }

  /** A body with one completed event, after any events that are not terminal, is completed; with a failed one in its
      place it is not. */
  lemma FirstTerminalDecides(json: Json, before: seq<seq<Field>>, last: seq<Field>, after: seq<seq<Field>>, eol: string)
    requires json.terminal("").None? && Events(before + [last] + after) && Eol(eol)
    requires var events := before + [last] + after;
             forall line :: line in RawLines(StreamText(events, eol)) ==> |line| < LINE_LIMIT
    requires forall i :: 0 <= i < |before| ==> json.terminal(JoinLines(TextsOf(before[i]))).None?
    requires TextsOf(last) != [] && json.terminal(JoinLines(TextsOf(last))).Some?
    ensures Completed(json, RawLines(StreamText(before + [last] + after, eol)), [])
         == json.terminal(JoinLines(TextsOf(last))).value
  {
    hide Completed, Events, StreamText, RawLines, Eol, Verdict, Payloads, AllTexts, TextsOf, JoinLines;
    WrittenDecides(json, before + [last] + after, eol);
    VerdictIsFirst(json, before, last, after);
  }

  lemma {:induction false} VerdictIsFirst(json: Json, before: seq<seq<Field>>, last: seq<Field>, after: seq<seq<Field>>)
    requires json.terminal("").None?
    requires forall i :: 0 <= i < |before| ==> json.terminal(JoinLines(TextsOf(before[i]))).None?
    requires TextsOf(last) != [] && json.terminal(JoinLines(TextsOf(last))).Some?
    ensures Verdict(json, Payloads(AllTexts(before + [last] + after))) == json.terminal(JoinLines(TextsOf(last))).value
  {
    hide TextsOf, JoinLines, Verdict, Payloads;
    var events := before + [last] + after;
    if before == [] {
      assert events[0] == last && events[1..] == after;
      PayloadsFirst(json, TextsOf(last), AllTexts(after));
    } else {
      assert events[0] == before[0] && events[1..] == before[1..] + [last] + after;
      VerdictIsFirst(json, before[1..], last, after);
      PayloadsFirst(json, TextsOf(before[0]), AllTexts(events[1..]));
    }
  }
}
