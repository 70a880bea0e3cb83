/** Server-sent events (HTML Living Standard, section 9.2.6), read in two ways:
    chunk by chunk through a bounded carry buffer (`observeStreamFailure`), and
    line by line over a whole body (`probeCompleted`). */
module Sse {
  import opened Text
  import opened Wrappers

  const CARRY_LIMIT := 65536
  const LINE_LIMIT := 262144

  /** What the JSON library says about a text: is it valid, and is it a terminal event
      (and then a completed one)? */
  datatype Json = Json(valid: string -> bool, terminal: string -> Option<bool>)

  // ----- the pieces of the chunk reader -----

  /** `bytes.ReplaceAll(buffer, "\r\n", "\n")` */
  function Normalize(s: string): (r: string)
    ensures |r| <= |s|
  {
    if s == "" then ""
    else if |s| >= 2 && s[0] == '\r' && s[1] == '\n' then "\n" + Normalize(s[2..])
    else [s[0]] + Normalize(s[1..])
  }

  predicate BlankAt(s: string, i: int) {
    0 <= i < |s| - 1 && s[i] == '\n' && s[i + 1] == '\n'
  }

  /** `bytes.Index(buffer, "\n\n")` */
  function Break(s: string): (r: Option<nat>)
    ensures r.Some? ==> r.value + 2 <= |s| && BlankAt(s, r.value)
    ensures forall i :: BlankAt(s, i) ==> r.Some? && r.value <= i
  {
    if |s| < 2 then None
    else if s[0] == '\n' && s[1] == '\n' then Some(0)
    else
      var r := Break(s[1..]);
      assert forall i :: BlankAt(s, i) ==> BlankAt(s[1..], i - 1);
      if r.None? then None else Some(r.value + 1)
  }

  datatype Cut = Cut(frames: seq<string>, tail: string)

  /** All finished frames, and the unfinished tail. */
  function Frames(s: string): Cut {
    var b := Break(s);
    if b.None? then Cut([], s)
    else
      var rest := Frames(s[b.value + 2..]);
      Cut([s[..b.value]] + rest.frames, rest.tail)
  }

  function Joined(frames: seq<string>): string {
    if frames == [] then "" else frames[0] + "\n\n" + Joined(frames[1..])
  }

  /** `strings.Split(s, "\n")` */
  function SplitLines(s: string): (r: seq<string>)
    ensures r != []
  {
    if s == "" then [""]
    else if s[0] == '\n' then [""] + SplitLines(s[1..])
    else
      var rest := SplitLines(s[1..]);
      [[s[0]] + rest[0]] + rest[1..]
  }

  /** The data that one line contributes: none, or the text after `data:` and one optional space. */
  function LineData(line: string): seq<string> {
    if "data:" <= line then
      var text := line[5..];
      [if " " <= text then text[1..] else text]
    else []
  }

  function DataOf(lines: seq<string>): seq<string> {
    if lines == [] then [] else LineData(lines[0]) + DataOf(lines[1..])
  }

  function Payload(frame: string): string {
    JoinLines(DataOf(SplitLines(frame)))
  }

  // ----- one call, and a run of calls, of the chunk reader -----

  /** What was handed to the classifier (frames, raw JSON texts) and what is kept for the next call. */
  datatype Observed = Observed(frames: seq<string>, raws: seq<string>, carry: string)

  function Feed(json: Json, carry: string, chunk: string): Observed {
    if chunk == "" then Observed([], [], carry)
    else if |carry| + |chunk| > CARRY_LIMIT then Observed([], [], "")
    else
      var cut := Frames(Normalize(carry + chunk));
      if json.valid(cut.tail) then Observed(cut.frames, [cut.tail], "")
      else Observed(cut.frames, [], cut.tail)
  }

  function FeedAll(json: Json, chunks: seq<string>): Observed {
    if chunks == [] then Observed([], [], "")
    else
      var before := FeedAll(json, chunks[..|chunks| - 1]);
      var last := Feed(json, before.carry, chunks[|chunks| - 1]);
      Observed(before.frames + last.frames, before.raws + last.raws, last.carry)
  }

  function Concat(chunks: seq<string>): string {
    if chunks == [] then "" else Concat(chunks[..|chunks| - 1]) + chunks[|chunks| - 1]
  }

  /** The reference: normalise the whole stream once, then split it. */
  function Whole(stream: string): Observed {
    var cut := Frames(Normalize(stream));
    Observed(cut.frames, [], cut.tail)
  }

  // ----- rewriting a carry twice -----

  predicate DirtyAt(s: string, i: int) {
    0 <= i < |s| - 2 && s[i] == '\r' && s[i + 1] == '\r' && s[i + 2] == '\n'
  }

  /** No CR CR LF: the one pattern whose rewriting makes a new CR LF. */
  predicate Clean(s: string) {
    forall i | 0 <= i < |s| :: !DirtyAt(s, i)
  }

  predicate PairAt(s: string, i: int) {
    0 <= i < |s| - 1 && s[i] == '\r' && s[i + 1] == '\n'
  }

  predicate NoPair(s: string) {
    forall i | 0 <= i < |s| :: !PairAt(s, i)
  }

  lemma CleanPart(s: string, i: nat, j: nat)
    requires Clean(s) && i <= j <= |s|
    ensures Clean(s[i..j]) && (j == |s| ==> Clean(s[i..]))
  {
    assert j == |s| ==> s[i..] == s[i..j];
    forall k | 0 <= k < j - i ensures !DirtyAt(s[i..j], k) { assert !DirtyAt(s, i + k); }
  }

  lemma {:induction false} CleanLeavesNoPair(s: string)
    requires Clean(s)
    ensures NoPair(Normalize(s))
    ensures Normalize(s) != "" && Normalize(s)[0] == '\n' ==> s[0] == '\n' || PairAt(s, 0)
  {
    if s == "" {
    } else if PairAt(s, 0) {
      CleanPart(s, 2, |s|);
      CleanLeavesNoPair(s[2..]);
      var n, m := Normalize(s), Normalize(s[2..]);
      forall k | 0 <= k < |n| ensures !PairAt(n, k) { assert k > 0 ==> !PairAt(m, k - 1); }
    } else {
      CleanPart(s, 1, |s|);
      CleanLeavesNoPair(s[1..]);
      var n, m := Normalize(s), Normalize(s[1..]);
      forall k | 0 <= k < |n| ensures !PairAt(n, k) {
        assert k > 0 ==> !PairAt(m, k - 1);
        assert !DirtyAt(s, 0);
      }
    }
  }

  lemma NormalizeFirst(c: char, z: string)
    ensures !(c == '\r' && z != "" && z[0] == '\n') ==> Normalize([c] + z) == [c] + Normalize(z)
    ensures c == '\r' && z != "" && z[0] == '\n' ==> Normalize([c] + z) == "\n" + Normalize(z[1..])
  {
    assert ([c] + z)[1..] == z;
    assert z != "" ==> ([c] + z)[2..] == z[1..];
  }

  lemma {:induction false} NormalizeSplits(x: string, y: string)
    requires !(x != "" && y != "" && x[|x| - 1] == '\r' && y[0] == '\n')
    ensures Normalize(x + y) == Normalize(x) + Normalize(y)
  {
    hide Normalize;
    if x == "" {
      NormalizeNothing();
      assert x + y == y && "" + Normalize(y) == Normalize(y);
    } else {
      var c, z := x[0], x[1..];
      assert x == [c] + z && x + y == [c] + (z + y);
      NormalizeFirst(c, z);
      NormalizeFirst(c, z + y);
      if c == '\r' && z != "" && z[0] == '\n' {
        assert (z + y)[1..] == z[1..] + y;
        NormalizeSplits(z[1..], y);
      } else {
        NormalizeSplits(z, y);
      }
    }
  }

  lemma NormalizeNothing()
    ensures Normalize("") == ""
  {
  }

  lemma {:induction false} NoPairIsNormal(s: string)
    requires NoPair(s)
    ensures Normalize(s) == s
  {
    if s != "" {
      forall k | 0 <= k < |s[1..]| ensures !PairAt(s[1..], k) { assert !PairAt(s, k + 1); }
      assert !PairAt(s, 0);
      NoPairIsNormal(s[1..]);
    }
  }

  lemma Assoc<T>(a: seq<T>, b: seq<T>, c: seq<T>)
    ensures a + (b + c) == a + b + c
  {
  }

  lemma HeadTail<T>(a: seq<T>, b: seq<T>)
    requires a != []
    ensures [a[0]] + (a[1..] + b) == a + b
  {
  }

  lemma {:induction false} NormalizeResumes(x: string, y: string)
    requires Clean(x)
    ensures Normalize(Normalize(x) + y) == Normalize(x + y)
  {
    if x == "" {
      assert x + y == y && Normalize(x) + y == y;
    } else if PairAt(x, 0) {
      CleanPart(x, 2, |x|);
      NormalizeResumes(x[2..], y);
      assert (x + y)[2..] == x[2..] + y;
      Assoc("\n", Normalize(x[2..]), y);
      NormalizeFirst('\n', Normalize(x[2..]) + y);
    } else {
      CleanPart(x, 1, |x|);
      NormalizeResumes(x[1..], y);
      ResumeStep(x, Normalize(x), Normalize(x[1..]), y);
    }
  }

  lemma SameFirst(c: char, p: string, q: string)
    requires Normalize(p) == Normalize(q)
    requires c == '\r' ==> p == q || (p != "" && q != "" && p[0] != '\n' && q[0] != '\n')
    ensures Normalize([c] + p) == Normalize([c] + q)
  {
    NormalizeFirst(c, p);
    NormalizeFirst(c, q);
  }

  lemma ResumeStep(x: string, n: string, m: string, y: string)
    requires x != "" && Clean(x) && !PairAt(x, 0)
    requires m == Normalize(x[1..]) && n == [x[0]] + m
    requires Normalize(m + y) == Normalize(x[1..] + y)
    ensures Normalize(n + y) == Normalize(x + y)
  {
    if |x| > 1 && x[0] == '\r' { NotLineFeed(x); }
    SameFirst(x[0], m + y, x[1..] + y);
    Assoc([x[0]], m, y);
    HeadTail(x, y);
  }

  lemma NotLineFeed(x: string)
    requires |x| > 1 && Clean(x) && !PairAt(x, 0) && x[0] == '\r'
    ensures Normalize(x[1..]) != "" && Normalize(x[1..])[0] != '\n' && x[1] != '\n'
  {
    CleanPart(x, 1, |x|);
    CleanLeavesNoPair(x[1..]);
    assert !DirtyAt(x, 0);
  }

  // ----- cutting frames out of a growing buffer -----

  /** The first frame of a text is settled once its blank line has arrived. */
  lemma FirstFrame(s: string, rest: string)
    requires Break(s).Some?
    ensures var f := s[..Break(s).value];
            && s == f + "\n\n" + s[|f| + 2..]
            && Break(f + "\n\n" + rest) == Some(|f|)
  {
    var b := Break(s).value;
    var f := s[..b];
    var t := f + "\n\n" + rest;
    assert s[b..b + 2] == "\n\n";
    assert BlankAt(t, b);
    var c := Break(t).value;
    assert BlankAt(t, c);
    if c < b {
      EarlierBreak(s, t, b, c);
    }
  }

  lemma EarlierBreak(s: string, t: string, b: nat, c: nat)
    requires c < b && b + 1 < |s| && b + 1 < |t| && s[b] == '\n' && s[..b + 1] == t[..b + 1] && BlankAt(t, c)
    ensures BlankAt(s, c)
  {
    assert s[c] == s[..b + 1][c] && t[c] == t[..b + 1][c];
    assert s[c + 1] == s[..b + 1][c + 1] && t[c + 1] == t[..b + 1][c + 1];
  }

  lemma FrameFirst(f: string, rest: string)
    requires Break(f + "\n\n" + rest) == Some(|f|)
    ensures Frames(f + "\n\n" + rest) == Cut([f] + Frames(rest).frames, Frames(rest).tail)
  {
    var t := f + "\n\n" + rest;
    assert t[..|f|] == f && t[|f| + 2..] == rest;
  }

  /** A text is its frames, each closed by a blank line, and its tail. */
  lemma {:induction false} FramesRebuild(s: string)
    ensures s == Joined(Frames(s).frames) + Frames(s).tail
  {
    var b := Break(s);
    if b.Some? {
      var rest := s[b.value + 2..];
      FirstFrame(s, rest);
      FramesRebuild(rest);
    }
  }

  lemma JoinedFirst(f: string, more: seq<string>, rest: string)
    ensures Joined([f] + more) + rest == f + "\n\n" + (Joined(more) + rest)
  {
    assert ([f] + more)[1..] == more;
  }

  lemma {:induction false} JoinedEnds(frames: seq<string>)
    requires frames != []
    ensures var j := Joined(frames); |j| >= 2 && j[|j| - 2] == '\n' && j[|j| - 1] == '\n'
  {
    if |frames| > 1 {
      JoinedEnds(frames[1..]);
    }
  }

  lemma NothingJoined(rest: string)
    ensures Frames(Joined([]) + rest) == Cut([] + Frames(rest).frames, Frames(rest).tail)
  {
    hide Frames;
    assert Joined([]) + rest == rest;
    assert [] + Frames(rest).frames == Frames(rest).frames;
  }

  lemma FramesUnfold(s: string)
    ensures var b := Break(s);
            Frames(s) == if b.None? then Cut([], s)
                         else Cut([s[..b.value]] + Frames(s[b.value + 2..]).frames, Frames(s[b.value + 2..]).tail)
  {
    hide Break;
  }

  lemma {:induction false} FramesResume(s: string, rest: string)
    ensures Frames(Joined(Frames(s).frames) + rest)
         == Cut(Frames(s).frames + Frames(rest).frames, Frames(rest).tail)
  {
    hide Frames, Break, Joined;
    var b := Break(s);
    FramesUnfold(s);
    if b.None? {
      NothingJoined(rest);
    } else {
      var f, s' := s[..b.value], s[b.value + 2..];
      FramesResume(s', rest);
      FramesResumeStep(s, f, Frames(s').frames, rest, Frames(rest));
    }
  }

  lemma FramesResumeStep(s: string, f: string, more: seq<string>, rest: string, last: Cut)
    requires Break(s).Some? && f == s[..Break(s).value]
    requires Frames(Joined(more) + rest) == Cut(more + last.frames, last.tail)
    ensures Frames(Joined([f] + more) + rest) == Cut([f] + more + last.frames, last.tail)
  {
    var later := Joined(more) + rest;
    FirstFrame(s, later);
    FrameFirst(f, later);
    JoinedFirst(f, more, rest);
    Assoc([f], more, last.frames);
  }

  lemma FramesOfNormal(x: string)
    requires Clean(x)
    ensures var head := Joined(Frames(Normalize(x)).frames);
            && Normalize(head) == head
            && (head != "" ==> head[|head| - 1] == '\n')
  {
    var n := Normalize(x);
    var head := Joined(Frames(n).frames);
    FramesRebuild(n);
    CleanLeavesNoPair(x);
    forall i | 0 <= i < |head| ensures !PairAt(head, i) { assert !PairAt(n, i); }
    NoPairIsNormal(head);
    if head != "" {
      JoinedEnds(Frames(n).frames);
    }
  }

  lemma NormalizeTail(x: string, head: string, tail: string, chunk: string)
    requires Clean(x) && Normalize(x) == head + tail && Normalize(head) == head
    requires head != "" ==> head[|head| - 1] == '\n'
    ensures Normalize(x + chunk) == head + Normalize(tail + chunk)
  {
    NormalizeResumes(x, chunk);
    Assoc(head, tail, chunk);
    NormalizeSplits(head, tail + chunk);
  }

  /** One call continues exactly where the whole-stream reading of the earlier bytes stopped. */
  lemma FeedContinues(x: string, chunk: string)
    requires Clean(x)
    ensures var before := Frames(Normalize(x));
            var now := Frames(Normalize(before.tail + chunk));
            Frames(Normalize(x + chunk)) == Cut(before.frames + now.frames, now.tail)
  {
    var n := Normalize(x);
    var cut := Frames(n);
    FramesRebuild(n);
    FramesOfNormal(x);
    NormalizeTail(x, Joined(cut.frames), cut.tail, chunk);
    FramesResume(n, Normalize(cut.tail + chunk));
  }

  // ----- split invariance -----

  /** The carry of the whole-stream reading of a prefix. */
  function Pending(stream: string): string {
    Frames(Normalize(stream)).tail
  }

  /** Before every chunk the pending text leaves room for it. */
  predicate Fits(chunks: seq<string>) {
    forall i | 0 <= i < |chunks| :: |Pending(Concat(chunks[..i]))| + |chunks[i]| <= CARRY_LIMIT
  }

  /** After no chunk is the pending text a JSON text of its own. */
  predicate Framed(json: Json, chunks: seq<string>) {
    forall i | 0 < i <= |chunks| :: !json.valid(Pending(Concat(chunks[..i])))
  }

  /** However a stream is split, the reader hands on the frames of the whole stream, in order,
      and keeps its unfinished tail. */
  lemma {:induction false} SplitInvariance(json: Json, chunks: seq<string>)
    requires forall i :: 0 <= i < |chunks| ==> chunks[i] != ""
    requires chunks != [] ==> Clean(Concat(chunks[..|chunks| - 1]))
    requires Fits(chunks) && Framed(json, chunks)
    ensures FeedAll(json, chunks) == Whole(Concat(chunks))
  {
    if chunks != [] {
      InitFacts(json, chunks);
      SplitInvariance(json, chunks[..|chunks| - 1]);
      OneChunkMore(json, chunks);
    }
  }

  lemma InitFacts(json: Json, chunks: seq<string>)
    requires chunks != [] && Fits(chunks) && Framed(json, chunks) && Clean(Concat(chunks[..|chunks| - 1]))
    ensures var init := chunks[..|chunks| - 1];
            && Fits(init) && Framed(json, init)
            && (init != [] ==> Clean(Concat(init[..|init| - 1])))
  {
    hide Pending, Clean;
    var n := |chunks| - 1;
    var init := chunks[..n];
    forall i | 0 <= i <= n ensures init[..i] == chunks[..i] {}
    if n > 0 {
      CleanPart(Concat(init), 0, |Concat(init[..n - 1])|);
      assert Concat(init)[..|Concat(init[..n - 1])|] == Concat(init[..n - 1]);
    }
  }

  lemma OneChunkMore(json: Json, chunks: seq<string>)
    requires chunks != [] && chunks[|chunks| - 1] != "" && Fits(chunks) && Framed(json, chunks)
    requires Clean(Concat(chunks[..|chunks| - 1]))
    requires FeedAll(json, chunks[..|chunks| - 1]) == Whole(Concat(chunks[..|chunks| - 1]))
    ensures FeedAll(json, chunks) == Whole(Concat(chunks))
  {
    assert chunks[..|chunks|] == chunks;
    FeedContinues(Concat(chunks[..|chunks| - 1]), chunks[|chunks| - 1]);
    hide Clean, Frames, Normalize;
  }

  lemma FeedBounded(json: Json, carry: string, chunk: string)
    requires |carry| <= CARRY_LIMIT
    ensures |Feed(json, carry, chunk).carry| <= CARRY_LIMIT
  {
    FramesRebuild(Normalize(carry + chunk));
  }

  /** Whatever arrives, the carry stays within its limit. */
  lemma {:induction false} CarryBounded(json: Json, chunks: seq<string>)
    ensures |FeedAll(json, chunks).carry| <= CARRY_LIMIT
  {
    if chunks != [] {
      CarryBounded(json, chunks[..|chunks| - 1]);
      FeedBounded(json, FeedAll(json, chunks[..|chunks| - 1]).carry, chunks[|chunks| - 1]);
    }
  }

  // ----- the line reader -----

  /** The lines `bufio.ScanLines` delivers, before it drops a final CR. */
  function RawLines(s: string): seq<string> {
    var lines := SplitLines(s);
    if lines[|lines| - 1] == "" then lines[..|lines| - 1] else lines
  }

  function DropCR(line: string): string {
    if line != "" && line[|line| - 1] == '\r' then line[..|line| - 1] else line
  }

  /** The lines as `bufio.ScanLines` delivers them. */
  function Dropped(lines: seq<string>): (r: seq<string>)
    ensures |r| == |lines|
  {
    if lines == [] then [] else [DropCR(lines[0])] + Dropped(lines[1..])
  }

  /** What `probeCompleted` answers from a line on, with the data collected so far. */
  function Completed(json: Json, lines: seq<string>, data: seq<string>): bool {
    if lines == [] then json.terminal(JoinLines(data)) == Some(true)
    else if |lines[0]| >= LINE_LIMIT then false
    else
      var line := DropCR(lines[0]);
      if line == "" then
        match json.terminal(JoinLines(data))
        case Some(ok) => ok
        case None => Completed(json, lines[1..], [])
      else Completed(json, lines[1..], data + LineData(line))
  }

  /** `probeCompleted` */
  method ProbeCompleted(json: Json, body: string) returns (ok: bool)
    ensures ok == Completed(json, RawLines(body), [])
  {
    var lines := RawLines(body);
    var data: seq<string> := [];
    for i := 0 to |lines|
      invariant Completed(json, lines, []) == Completed(json, lines[i..], data)
    {
      if |lines[i]| >= LINE_LIMIT {
        return false;
      }
      var line := DropCR(lines[i]);
      if line == "" {
        var done := json.terminal(JoinLines(data));
        if done.Some? {
          return done.value;
        }
        data := [];
      } else if "data:" <= line {
        var text := line[5..];
        data := data + [if " " <= text then text[1..] else text];
      } else {
        assert data + LineData(line) == data;
      }
      assert lines[i..][1..] == lines[i + 1..];
    }
    return json.terminal(JoinLines(data)) == Some(true);
  }

  /** The data of the events, in the order in which blank lines, or the end, dispatch them. */
  function LineEvents(lines: seq<string>, data: seq<string>): seq<seq<string>> {
    if lines == [] then [data]
    else if lines[0] == "" then [data] + LineEvents(lines[1..], [])
    else LineEvents(lines[1..], data + LineData(lines[0]))
  }

  /** The payloads of the events that carry data. */
  function Payloads(events: seq<seq<string>>): seq<string> {
    if events == [] then []
    else (if events[0] == [] then [] else [JoinLines(events[0])]) + Payloads(events[1..])
  }

  function FrameEvents(frames: seq<string>): seq<seq<string>> {
    if frames == [] then [] else [DataOf(SplitLines(frames[0]))] + FrameEvents(frames[1..])
  }

  /** The first terminal event decides. */
  function Verdict(json: Json, payloads: seq<string>): bool {
    if payloads == [] then false
    else
      match json.terminal(payloads[0])
      case Some(ok) => ok
      case None => Verdict(json, payloads[1..])
  }

  lemma {:induction false} CompletedIsVerdict(json: Json, lines: seq<string>, data: seq<string>)
    requires json.terminal("").None?
    requires forall line :: line in lines ==> |line| < LINE_LIMIT
    ensures Completed(json, lines, data) == Verdict(json, Payloads(LineEvents(Dropped(lines), data)))
  {
    if lines == [] {
      assert LineEvents([], data) == [data] && [data][1..] == [];
    } else {
      var line := DropCR(lines[0]);
      assert lines[0] in lines && Dropped(lines)[0] == line && Dropped(lines)[1..] == Dropped(lines[1..]);
      if line == "" {
        CompletedIsVerdict(json, lines[1..], []);
        var later := LineEvents(Dropped(lines[1..]), []);
        assert ([data] + later)[1..] == later;
        PayloadsFirst(json, data, later);
      } else {
        CompletedIsVerdict(json, lines[1..], data + LineData(line));
      }
    }
  }

  lemma PayloadsFirst(json: Json, data: seq<string>, later: seq<seq<string>>)
    requires json.terminal("").None?
    ensures Verdict(json, Payloads([data] + later)) ==
            match json.terminal(JoinLines(data)) { case Some(ok) => ok case None => Verdict(json, Payloads(later)) }
  {
    assert ([data] + later)[1..] == later;
    if data == [] {
      assert [] + Payloads(later) == Payloads(later);
    } else {
      assert ([JoinLines(data)] + Payloads(later))[1..] == Payloads(later);
    }
  }

  lemma SplitFirst(t: string)
    requires t != ""
    ensures var rest := SplitLines(t[1..]);
            SplitLines(t) == if t[0] == '\n' then [""] + rest else [[t[0]] + rest[0]] + rest[1..]
  {
  }

  lemma BreakFirst(y: string)
    ensures SplitLines("\n" + y) == [""] + SplitLines(y) && SplitLines("") == [""]
  {
    assert ("\n" + y)[1..] == y;
  }

  lemma FirstGrows(c: char, a: seq<string>, b: seq<string>)
    requires a != []
    ensures [[c] + (a + b)[0]] + (a + b)[1..] == [[c] + a[0]] + a[1..] + b
  {
    FirstOfAppended(a, b);
    Assoc([[c] + a[0]], a[1..], b);
  }

  lemma {:induction false} SplitLinesAppend(x: string, y: string)
    ensures SplitLines(x + "\n" + y) == SplitLines(x) + SplitLines(y)
  {
    hide SplitLines;
    if x == "" {
      BreakFirst(y);
      assert x + "\n" + y == "\n" + y;
    } else {
      SplitLinesAppend(x[1..], y);
      SplitFirst(x);
      SplitFirst(x + "\n" + y);
      assert (x + "\n" + y)[1..] == x[1..] + "\n" + y;
      FirstGrows(x[0], SplitLines(x[1..]), SplitLines(y));
      Assoc([""], SplitLines(x[1..]), SplitLines(y));
    }
  }

  lemma FirstOfAppended<T>(a: seq<T>, b: seq<T>)
    requires a != []
    ensures (a + b)[0] == a[0] && (a + b)[1..] == a[1..] + b
  {
  }

  /** No blank line but possibly the first. */
  predicate Solid(lines: seq<string>) {
    forall i | 0 < i < |lines| :: lines[i] != ""
  }

  lemma {:induction false} UnbrokenIsSolid(s: string)
    requires forall i :: !BlankAt(s + "\n", i)
    ensures Solid(SplitLines(s))
    ensures s != "" ==> s[|s| - 1] != '\n'
    ensures SplitLines(s)[0] == "" ==> s == "" || s[0] == '\n'
  {
    if s != "" {
      var r := s[1..];
      forall i ensures !BlankAt(r + "\n", i) {
        if 0 <= i < |s| - 1 { assert (r + "\n")[i] == (s + "\n")[i + 1] && (r + "\n")[i + 1] == (s + "\n")[i + 2]; }
        assert !BlankAt(s + "\n", i + 1);
      }
      UnbrokenIsSolid(r);
      assert !BlankAt(s + "\n", 0);
      assert r != "" ==> s[|s| - 1] == r[|r| - 1];
    }
  }

  lemma {:induction false} DataOfAppend(a: seq<string>, b: seq<string>)
    ensures DataOf(a + b) == DataOf(a) + DataOf(b)
  {
    if a == [] {
      assert a + b == b;
    } else {
      assert (a + b)[1..] == a[1..] + b;
      DataOfAppend(a[1..], b);
    }
  }

  lemma {:induction false} PayloadsAppend(a: seq<seq<string>>, b: seq<seq<string>>)
    ensures Payloads(a + b) == Payloads(a) + Payloads(b)
  {
    if a == [] {
      assert a + b == b;
    } else {
      assert (a + b)[1..] == a[1..] + b;
      PayloadsAppend(a[1..], b);
    }
  }

  lemma {:induction false} NonblankRun(lines: seq<string>, rest: seq<string>, data: seq<string>)
    requires forall i :: 0 <= i < |lines| ==> lines[i] != ""
    ensures LineEvents(lines + rest, data) == LineEvents(rest, data + DataOf(lines))
  {
    if lines == [] {
      assert lines + rest == rest && data + DataOf(lines) == data;
    } else {
      assert (lines + rest)[1..] == lines[1..] + rest;
      NonblankRun(lines[1..], rest, data + LineData(lines[0]));
      Assoc(data, LineData(lines[0]), DataOf(lines[1..]));
    }
  }

  lemma BlankFirst(lines: seq<string>, rest: seq<string>)
    requires lines != [] && lines[0] == ""
    ensures Payloads(LineEvents(lines + rest, [])) == Payloads(LineEvents(lines[1..] + rest, []))
    ensures DataOf(lines) == DataOf(lines[1..])
  {
    FirstOfAppended(lines, rest);
    var later := LineEvents(lines[1..] + rest, []);
    PayloadsAppend([[]], later);
    assert Payloads([[]]) == [];
  }

  lemma SolidRun(lines: seq<string>, rest: seq<string>)
    requires lines != [] && Solid(lines)
    ensures Payloads(LineEvents(lines + rest, [])) == Payloads(LineEvents(rest, DataOf(lines)))
  {
    hide DataOf, LineEvents, Payloads;
    var solid := if lines[0] == "" then lines[1..] else lines;
    if lines[0] == "" {
      BlankFirst(lines, rest);
    }
    NonblankRun(solid, rest, []);
    assert [] + DataOf(solid) == DataOf(solid);
  }

  /** A frame and its blank line, read line by line. */
  lemma FrameByLines(lines: seq<string>, rest: seq<string>)
    requires lines != [] && Solid(lines)
    ensures Payloads(LineEvents(lines + ([""] + rest), [])) == Payloads([DataOf(lines)] + LineEvents(rest, []))
  {
    SolidRun(lines, [""] + rest);
    assert ([""] + rest)[1..] == rest;
  }

  lemma {:induction false} LinesOfFrames(s: string)
    ensures Payloads(LineEvents(SplitLines(s), []))
         == Payloads(FrameEvents(Frames(s).frames)) + Payloads(LineEvents(SplitLines(Frames(s).tail), []))
  {
    var b := Break(s);
    if b.None? {
      assert Payloads(FrameEvents([])) == [];
    } else {
      var f, rest := s[..b.value], s[b.value + 2..];
      FirstFrame(s, rest);
      LinesOfFrames(rest);
      FrameLines(s, f, rest);
      var lines, later := SplitLines(f), LineEvents(SplitLines(rest), []);
      FrameByLines(lines, SplitLines(rest));
      PayloadsAppend([DataOf(lines)], later);
      var more := Frames(rest).frames;
      assert ([f] + more)[1..] == more;
      PayloadsAppend([DataOf(lines)], FrameEvents(more));
      Assoc(Payloads([DataOf(lines)]), Payloads(FrameEvents(more)),
            Payloads(LineEvents(SplitLines(Frames(rest).tail), [])));
    }
  }

  lemma FrameIsSolid(s: string, f: string, rest: string)
    requires Break(s) == Some(|f|) && s == f + "\n\n" + rest
    ensures Solid(SplitLines(f))
  {
    forall i ensures !BlankAt(f + "\n", i) {
      if BlankAt(f + "\n", i) {
        assert (f + "\n")[i] == s[i] && (f + "\n")[i + 1] == s[i + 1];
        assert BlankAt(s, i);
      }
    }
    UnbrokenIsSolid(f);
  }

  lemma BlankLineSplits(f: string, rest: string)
    ensures f + "\n\n" + rest == f + "\n" + ("\n" + rest)
    ensures SplitLines("\n" + rest) == [""] + SplitLines(rest)
  {
    assert ("\n" + rest)[1..] == rest;
  }

  lemma FrameLines(s: string, f: string, rest: string)
    requires Break(s) == Some(|f|) && s == f + "\n\n" + rest
    ensures SplitLines(s) == SplitLines(f) + ([""] + SplitLines(rest))
    ensures Solid(SplitLines(f))
  {
    FrameIsSolid(s, f, rest);
    BlankLineSplits(f, rest);
    SplitLinesAppend(f, "\n" + rest);
  }

  /** A final empty piece of the split is not a line, and as a line it would change nothing. */
  lemma LastEmptyLine(lines: seq<string>, data: seq<string>)
    ensures Payloads(LineEvents(lines + [""], data)) == Payloads(LineEvents(lines, data))
  {
    if lines == [] {
      assert lines + [""] == [""];
      assert LineEvents([""], data) == [data] + [[]];
      PayloadsAppend([data], [[]]);
      assert Payloads([[]]) == [];
    } else {
      assert (lines + [""])[1..] == lines[1..] + [""];
      if lines[0] == "" {
        LastEmptyLine(lines[1..], []);
        PayloadsAppend([data], LineEvents(lines[1..] + [""], []));
        PayloadsAppend([data], LineEvents(lines[1..], []));
      } else {
        LastEmptyLine(lines[1..], data + LineData(lines[0]));
      }
    }
  }

  lemma SolidEvents(lines: seq<string>)
    requires lines != [] && Solid(lines)
    ensures Payloads(LineEvents(lines, [])) == Payloads([DataOf(lines)])
  {
    assert lines + [] == lines;
    SolidRun(lines, []);
  }

  lemma ClosedEvents(lines: seq<string>)
    requires lines != [] && Solid(lines)
    ensures Payloads(LineEvents(lines + [""], [])) == Payloads([DataOf(lines + [""])])
  {
    SolidEvents(lines);
    LastEmptyLine(lines, []);
    DataOfAppend(lines, [""]);
    assert DataOf([""]) == LineData("") + DataOf([]);
    assert DataOf(lines) + [] == DataOf(lines);
  }

  /** The payloads of a text without finished frame. */
  lemma UnfinishedEvents(tail: string)
    requires forall i :: !BlankAt(tail, i)
    ensures Payloads(LineEvents(SplitLines(tail), [])) == Payloads([DataOf(SplitLines(tail))])
  {
    if tail != "" && tail[|tail| - 1] == '\n' {
      var t := tail[..|tail| - 1];
      assert t + "\n" == tail && t + "\n" + "" == tail;
      SplitLinesAppend(t, "");
      UnbrokenIsSolid(t);
      ClosedEvents(SplitLines(t));
    } else {
      var u := tail + "\n";
      forall i ensures !BlankAt(u, i) {
        if BlankAt(u, i) {
          assert u[i] == tail[i];
          assert i < |tail| - 1 ==> u[i + 1] == tail[i + 1];
          assert BlankAt(tail, i);
        }
      }
      UnbrokenIsSolid(tail);
      SolidEvents(SplitLines(tail));
    }
  }

  lemma {:induction false} TailIsUnbroken(s: string)
    ensures forall i :: !BlankAt(Frames(s).tail, i)
  {
    if Break(s).Some? {
      TailIsUnbroken(s[Break(s).value + 2..]);
    }
  }

  lemma NormalReadersAgree(s: string)
    ensures Payloads(LineEvents(SplitLines(s), []))
         == Payloads(FrameEvents(Frames(s).frames)) + Payloads([DataOf(SplitLines(Frames(s).tail))])
  {
    LinesOfFrames(s);
    TailIsUnbroken(s);
    UnfinishedEvents(Frames(s).tail);
  }

  /** All but the last piece of a split end in LF, so only they can lose a CR to the rewriting. */
  function InitDropped(lines: seq<string>): seq<string>
    requires lines != []
  {
    Dropped(lines[..|lines| - 1]) + [lines[|lines| - 1]]
  }

  lemma InitDroppedFirst(line: string, rest: seq<string>)
    requires rest != []
    ensures InitDropped([line] + rest) == [DropCR(line)] + InitDropped(rest)
  {
    var lines := [line] + rest;
    var init := lines[..|lines| - 1];
    assert init[0] == line && init[1..] == rest[..|rest| - 1];
  }

  /** Rewriting CR LF and splitting at LF is splitting at LF and dropping the CR of every closed line. */
  lemma {:induction false} LinesOfNormal(t: string)
    ensures SplitLines(Normalize(t)) == InitDropped(SplitLines(t))
  {
    if t == "" {
    } else if PairAt(t, 0) {
      LinesOfNormal(t[2..]);
      NormalPair(t);
      InitDroppedFirst("\r", SplitLines(t[2..]));
    } else if t[0] == '\n' {
      LinesOfNormal(t[1..]);
      NormalChar(t);
      InitDroppedFirst("", SplitLines(t[1..]));
    } else {
      LinesOfNormal(t[1..]);
      NormalChar(t);
      LongerFirst(t[0], SplitLines(t[1..]), t[1..]);
    }
  }

  lemma NormalPair(t: string)
    requires PairAt(t, 0)
    ensures SplitLines(Normalize(t)) == [""] + SplitLines(Normalize(t[2..]))
    ensures SplitLines(t) == ["\r"] + SplitLines(t[2..])
  {
    assert ("\n" + Normalize(t[2..]))[1..] == Normalize(t[2..]);
    assert t[1..][0] == '\n' && t[1..][1..] == t[2..];
    var rest := SplitLines(t[1..]);
    assert rest == [""] + SplitLines(t[2..]) && rest[1..] == SplitLines(t[2..]);
    assert [t[0]] + "" == "\r";
  }

  lemma NormalChar(t: string)
    requires t != "" && !PairAt(t, 0)
    ensures t[0] == '\n' ==>
              && SplitLines(Normalize(t)) == [""] + SplitLines(Normalize(t[1..]))
              && SplitLines(t) == [""] + SplitLines(t[1..])
    ensures t[0] != '\n' ==>
              && SplitLines(Normalize(t))
                 == [[t[0]] + SplitLines(Normalize(t[1..]))[0]] + SplitLines(Normalize(t[1..]))[1..]
              && SplitLines(t) == [[t[0]] + SplitLines(t[1..])[0]] + SplitLines(t[1..])[1..]
  {
    assert ([t[0]] + Normalize(t[1..]))[1..] == Normalize(t[1..]);
  }

  /** One more character before the first line. */
  lemma LongerFirst(c: char, lines: seq<string>, rest: string)
    requires lines == SplitLines(rest) && c != '\n' && !(c == '\r' && rest != "" && rest[0] == '\n')
    ensures InitDropped([[c] + lines[0]] + lines[1..]) == [[c] + InitDropped(lines)[0]] + InitDropped(lines)[1..]
  {
    if |lines| == 1 {
      assert [[c] + lines[0]] + lines[1..] == [[c] + lines[0]];
      assert Dropped([]) == [];
    } else {
      InitDroppedFirst([c] + lines[0], lines[1..]);
      assert [lines[0]] + lines[1..] == lines;
      InitDroppedFirst(lines[0], lines[1..]);
      DropAfter(c, lines[0], rest);
    }
  }

  lemma DropAfter(c: char, line: string, rest: string)
    requires line == SplitLines(rest)[0] && |SplitLines(rest)| > 1 && !(c == '\r' && rest != "" && rest[0] == '\n')
    ensures DropCR([c] + line) == [c] + DropCR(line)
  {
    if line == "" {
      assert rest[0] == '\n';
    } else {
      assert ([c] + line)[..|line|] == [c] + line[..|line| - 1];
    }
  }

  lemma OnePiece(c: char)
    requires c != '\n'
    ensures SplitLines([c]) == [[c]]
  {
    assert [c][1..] == "" && SplitLines("") == [""];
    assert [c] + "" == [c] && [""][1..] == [];
  }

  /** A character at the end is a character at the end of the last piece. */
  lemma {:induction false} PieceGrows(t: string, c: char)
    requires c != '\n'
    ensures SplitLines(t + [c]) == Grown(SplitLines(t), c)
  {
    hide SplitLines, Grown;
    if t == "" {
      OnePiece(c);
      assert t + [c] == [c];
      NothingGrows(c);
    } else {
      PieceGrows(t[1..], c);
      assert (t + [c])[1..] == t[1..] + [c] && (t + [c])[0] == t[0];
      SplitFirst(t);
      SplitFirst(t + [c]);
      PieceShifts(t[0], SplitLines(t[1..]), c);
    }
  }

  function Grown(lines: seq<string>, c: char): (r: seq<string>)
    requires lines != []
    ensures |r| == |lines|
  {
    lines[..|lines| - 1] + [lines[|lines| - 1] + [c]]
  }

  lemma NothingGrows(c: char)
    ensures Grown(SplitLines(""), c) == [[c]]
  {
    assert SplitLines("") == [""] && "" + [c] == [c];
  }

  lemma PieceShifts(first: char, lines: seq<string>, c: char)
    requires lines != []
    ensures Grown([""] + lines, c) == [""] + Grown(lines, c)
    ensures Grown([[first] + lines[0]] + lines[1..], c) == [[first] + Grown(lines, c)[0]] + Grown(lines, c)[1..]
  {
    if |lines| == 1 {
      assert [first] + (lines[0] + [c]) == [first] + lines[0] + [c];
    }
  }

  lemma {:induction false} LastPieceEnds(s: string)
    ensures var last := SplitLines(s)[|SplitLines(s)| - 1];
            last != "" ==> s != "" && last[|last| - 1] == s[|s| - 1]
  {
    if s != "" {
      LastPieceEnds(s[1..]);
    }
  }

  lemma GrownDrops(lines: seq<string>)
    requires lines != []
    ensures var longer := Grown(lines, '\r'); longer[..|longer| - 1] + [DropCR(longer[|longer| - 1])] == lines
  {
    var last := lines[|lines| - 1];
    assert (last + ['\r'])[..|last|] == last;
  }

  lemma LastKept(lines: seq<string>)
    requires lines != [] && DropCR(lines[|lines| - 1]) == lines[|lines| - 1]
    ensures lines[..|lines| - 1] + [DropCR(lines[|lines| - 1])] == lines
  {
  }

  lemma LastPieceCR(t: string)
    ensures DropCR(t + ['\r']) == t
    ensures var lines := SplitLines(t + ['\r']);
            SplitLines(t) == lines[..|lines| - 1] + [DropCR(lines[|lines| - 1])]
  {
    hide SplitLines, Grown;
    PieceGrows(t, '\r');
    GrownDrops(SplitLines(t));
    assert (t + ['\r'])[..|t|] == t;
  }

  lemma LastPieceNoCR(s: string)
    requires s == "" || s[|s| - 1] != '\r'
    ensures var lines := SplitLines(s);
            DropCR(s) == s && lines[..|lines| - 1] + [DropCR(lines[|lines| - 1])] == lines
  {
    hide SplitLines;
    LastPieceEnds(s);
    LastKept(SplitLines(s));
  }

  /** A final CR stands in the last piece. */
  lemma LastPiece(s: string)
    ensures var lines := SplitLines(s);
            SplitLines(DropCR(s)) == lines[..|lines| - 1] + [DropCR(lines[|lines| - 1])]
  {
    hide SplitLines, DropCR;
    if s != "" && s[|s| - 1] == '\r' {
      assert s == s[..|s| - 1] + ['\r'];
      LastPieceCR(s[..|s| - 1]);
    } else {
      LastPieceNoCR(s);
    }
  }

  lemma {:induction false} DroppedAppend(a: seq<string>, b: seq<string>)
    ensures Dropped(a + b) == Dropped(a) + Dropped(b)
  {
    if a == [] {
      assert a + b == b;
    } else {
      assert (a + b)[1..] == a[1..] + b;
      DroppedAppend(a[1..], b);
    }
  }

  lemma DroppedOne(line: string)
    ensures Dropped([line]) == [DropCR(line)]
  {
    assert [line][1..] == [];
  }

  /** The lines that the scanner delivers are those of the rewritten stream without a final CR. */
  lemma ScannedLines(s: string)
    ensures Dropped(SplitLines(s)) == SplitLines(Normalize(DropCR(s)))
  {
    hide SplitLines, Normalize, Dropped, DropCR;
    var lines := SplitLines(s);
    var init, last := lines[..|lines| - 1], lines[|lines| - 1];
    LastPiece(s);
    LinesOfNormal(DropCR(s));
    assert (init + [DropCR(last)])[..|init|] == init;
    assert lines == init + [last];
    DroppedAppend(init, [last]);
    DroppedOne(last);
  }

  lemma ScannedSuffice(s: string)
    ensures Payloads(LineEvents(Dropped(RawLines(s)), [])) == Payloads(LineEvents(Dropped(SplitLines(s)), []))
  {
    var lines := SplitLines(s);
    hide LineEvents, Payloads;
    if lines[|lines| - 1] == "" {
      assert lines == RawLines(s) + [""];
      DroppedAppend(RawLines(s), [""]);
      DroppedOne("");
      LastEmptyLine(Dropped(RawLines(s)), []);
    }
  }

  /** On every stream both readers find the same payloads in the same order: the lines of the scanner against the
      frames of the rewritten stream, whose unfinished text is the last event of the line reader. A CR at
      the very end is no part of a line. */
  lemma ReadersAgree(s: string)
    ensures var whole := Frames(Normalize(DropCR(s)));
            Payloads(LineEvents(Dropped(RawLines(s)), []))
            == Payloads(FrameEvents(whole.frames)) + Payloads([DataOf(SplitLines(whole.tail))])
  {
    hide Frames, Normalize, SplitLines, LineEvents, Payloads, FrameEvents, DataOf;
    ScannedSuffice(s);
    ScannedLines(s);
    NormalReadersAgree(Normalize(DropCR(s)));
  }

  lemma {:induction false} BlankLineFinishes(s: string)
    requires s == "\n" || (|s| >= 2 && s[|s| - 2..] == "\n\n")
    ensures Frames(s).tail in ["", "\n"]
  {
    if |s| >= 2 {
      assert s[|s| - 2..][0] == s[|s| - 2] && s[|s| - 2..][1] == s[|s| - 1];
      assert BlankAt(s, |s| - 2);
      var rest := s[Break(s).value + 2..];
      if |rest| >= 2 {
        assert rest[|rest| - 2..] == s[|s| - 2..];
        BlankLineFinishes(rest);
      } else if |rest| == 1 {
        assert rest[0] == s[|s| - 1];
        assert rest == "\n";
        BlankLineFinishes(rest);
      }
    }
  }

  lemma EmptyPayloads()
    ensures Payloads([DataOf(SplitLines(""))]) == Payloads([DataOf(SplitLines("\n"))]) == []
  {
    assert SplitLines("") == [""] && SplitLines("\n") == ["", ""];
    assert DataOf([""]) == [] && DataOf(["", ""]) == [];
    assert Payloads([[]]) == [];
  }

  lemma BlankLinePayloads(s: string)
    requires s == "\n" || (|s| >= 2 && s[|s| - 2..] == "\n\n")
    ensures Payloads([DataOf(SplitLines(Frames(s).tail))]) == []
  {
    BlankLineFinishes(s);
    EmptyPayloads();
    hide Frames;
  }

  /** Within the line limit `probeCompleted` is decided, on every stream, by the first terminal payload among the
      frames of the rewritten stream, and by the held text when no frame decides. */
  lemma CompletedByFrames(json: Json, s: string)
    requires json.terminal("").None?
    requires forall line :: line in RawLines(s) ==> |line| < LINE_LIMIT
    ensures var n := Normalize(DropCR(s));
            && Completed(json, RawLines(s), [])
               == Verdict(json, Payloads(FrameEvents(Frames(n).frames))
                          + Payloads([DataOf(SplitLines(Frames(n).tail))]))
            && (n == "\n" || (|n| >= 2 && n[|n| - 2..] == "\n\n") ==>
                  Completed(json, RawLines(s), []) == Verdict(json, Payloads(FrameEvents(Frames(n).frames))))
  {
    hide Frames, Normalize, SplitLines, LineEvents, Payloads, FrameEvents, DataOf, DropCR, Completed, Verdict;
    var n := Normalize(DropCR(s));
    ReadersAgree(s);
    CompletedIsVerdict(json, RawLines(s), []);
    if n == "\n" || (|n| >= 2 && n[|n| - 2..] == "\n\n") {
      BlankLinePayloads(n);
      var p := Payloads(FrameEvents(Frames(n).frames));
      assert p + [] == p;
    }
  }
}
