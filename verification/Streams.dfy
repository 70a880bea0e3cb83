/** A response stream over a whole request attempt: what its chunks amount to, however the host cuts them. */
module Streams {
  import opened Wrappers
  import opened Policy
  import opened Machine
  import opened Frames
  import opened Requests
  import Alias
  import Sse

  /** The event hands in a chunk of the request's stream. */
  predicate Hears(e: Event, id: string) {
    e.act.Observe? && e.act.id == id
  }

  /** The chunks of the request's stream in a stretch of a run. */
  function Heard(es: seq<Event>, i: nat, n: nat, id: string): seq<string>
    requires i <= n <= |es|
  {
    if i == n then [] else Heard(es, i, n - 1, id) + if Hears(es[n - 1], id) then [es[n - 1].act.chunk] else []
  }

  /** All chunks of the stream are read by the same JSON library and classifier. */
  ghost predicate SameReader(es: seq<Event>, i: nat, n: nat, id: string, json: Sse.Json, classify: Classifier)
    requires n <= |es|
  {
    forall j | i <= j < n && Hears(es[j], id) :: es[j].act.json == json && es[j].act.classify == classify
  }

  lemma ObserveBuffer(s: State, e: Event, id: string)
    requires e.act.Observe? && id in s.requests
    ensures var s' := ObserveStep(s, e.act.id, e.act.chunk, e.act.json, e.act.classify);
            && id in s'.requests
            && s'.requests[id].buffer
               == if Hears(e, id) then Sse.Feed(e.act.json, s.requests[id].buffer, e.act.chunk).carry
                  else s.requests[id].buffer
  {
    hide ObserveStep, Sse.Feed;
    ObserveParts(s, e.act.id, e.act.chunk, e.act.json, e.act.classify);
  }

  predicate SameBuffer(s: State, s': State, id: string) {
    id in s.requests ==> id in s'.requests && s'.requests[id].buffer == s.requests[id].buffer
  }

  lemma BindLeavesBuffer(s: State, e: Event, id: string)
    requires e.act.Bind? && !BindsAt(s, e, id)
    ensures SameBuffer(s, BindStep(s, e.act.id, e.act.account, e.act.model, e.act.requested), id)
  {
    hide Binds, KeyOf;
  }

  lemma CaptureLeavesBuffer(s: State, now: Time, other: string, header: string, id: string)
    ensures SameBuffer(s, CaptureStep(s, now, other, header), id)
  {
    hide Captured;
  }

  lemma DetachLeavesBuffer(s: State, other: string, id: string)
    requires other != id
    ensures SameBuffer(s, DetachStep(s, other), id)
  {
    hide Requeued;
  }

  lemma CompleteLeavesBuffer(s: State, e: Event, id: string)
    requires e.act.Complete? && e.act.id != id
    ensures SameBuffer(s, CompleteStep(s, e.at, e.act.id, e.act.outcome, e.act.code, e.act.error), id)
  {
    hide CompletionQueue, CompletionPromotes;
  }

  lemma HookBuffer(s: State, e: Event, id: string)
    requires (e.act.Bind? || e.act.Detach? || e.act.Complete? || e.act.Capture?) && !Renews(s, e, id)
    ensures SameBuffer(s, Step(s, e), id)
  {
    hide Step, BindStep, CaptureStep, DetachStep, CompleteStep, BindsAt, SameBuffer;
    StepIs(s, e);
    if e.act.Bind? {
      BindLeavesBuffer(s, e, id);
    } else if e.act.Capture? {
      CaptureLeavesBuffer(s, e.at, e.act.id, e.act.header, id);
    } else if e.act.Detach? {
      DetachLeavesBuffer(s, e.act.id, id);
    } else {
      CompleteLeavesBuffer(s, e, id);
    }
  }

  lemma BufferStep(s: State, e: Event, id: string)
    requires id in s.requests && !Renews(s, e, id)
    ensures id in Step(s, e).requests
    ensures Step(s, e).requests[id].buffer
         == if Hears(e, id) then Sse.Feed(e.act.json, s.requests[id].buffer, e.act.chunk).carry
            else s.requests[id].buffer
  {
    hide Step, ObserveStep, Sse.Feed, Binds, Accepts;
    if e.act.Observe? {
      StepIs(s, e);
      ObserveBuffer(s, e, id);
    } else if OfHook(e.act) {
      HookBuffer(s, e, id);
    } else {
      StepFootprint(s, e);
    }
  }

  lemma BoundBuffer(s: State, e: Event, id: string)
    requires BindsAt(s, e, id)
    ensures id in Step(s, e).requests && Step(s, e).requests[id].buffer == ""
  {
    hide Step, Binds, KeyOf;
    StepIs(s, e);
  }

  lemma FeedNext(json: Sse.Json, chunks: seq<string>, chunk: string)
    ensures var before := Sse.FeedAll(json, chunks);
            var last := Sse.Feed(json, before.carry, chunk);
            Sse.FeedAll(json, chunks + [chunk])
            == Sse.Observed(before.frames + last.frames, before.raws + last.raws, last.carry)
  {
    hide Sse.Feed;
    assert (chunks + [chunk])[..|chunks|] == chunks;
  }

  /** The buffer of a live binding is the carry of all that its attempt has heard. */
  lemma {:induction false} BufferIsCarry(es: seq<Event>, b: nat, n: nat, id: string, json: Sse.Json,
                                         classify: Classifier)
    requires b < n <= |es| && BindsAt(At(es, b), es[b], id) && NotRenewed(es, b + 1, n, id)
    requires SameReader(es, b + 1, n, id, json, classify)
    ensures id in At(es, n).requests
    ensures At(es, n).requests[id].buffer == Sse.FeedAll(json, Heard(es, b + 1, n, id)).carry
  {
    hide At, Step, Renews, BindsAt, Sse.Feed, Sse.FeedAll;
    AtNext(es, n - 1);
    if n == b + 1 {
      BoundBuffer(At(es, b), es[b], id);
      NothingFed(json);
    } else {
      assert !Renews(At(es, n - 1), es[n - 1], id);
      BufferIsCarry(es, b, n - 1, id, json, classify);
      BufferStep(At(es, n - 1), es[n - 1], id);
      HeardNext(es, b + 1, n, id);
      if Hears(es[n - 1], id) {
        FeedNext(json, Heard(es, b + 1, n - 1, id), es[n - 1].act.chunk);
      }
    }
  }

  lemma HeardNext(es: seq<Event>, i: nat, n: nat, id: string)
    requires i < n <= |es|
    ensures Hears(es[n - 1], id) ==> Heard(es, i, n, id) == Heard(es, i, n - 1, id) + [es[n - 1].act.chunk]
    ensures !Hears(es[n - 1], id) ==> Heard(es, i, n, id) == Heard(es, i, n - 1, id)
  {
  }

  lemma NothingFed(json: Sse.Json)
    ensures Sse.FeedAll(json, []) == Sse.Observed([], [], "")
  {
  }

  // ----- failures in the stream -----

  /** What the classifier finds in all that the reader handed on. */
  function Found(classify: Classifier, o: Sse.Observed): seq<Reason> {
    ReasonsIn(classify, PayloadsOf(o.frames)) + ReasonsIn(classify, o.raws)
  }

  lemma FoundNext(classify: Classifier, before: Sse.Observed, last: Sse.Observed)
    ensures |Found(classify, Sse.Observed(before.frames + last.frames, before.raws + last.raws, last.carry))|
         == |Found(classify, before)| + |Found(classify, last)|
  {
    PayloadsAppend(before.frames, last.frames);
    ReasonsAppend(classify, PayloadsOf(before.frames), PayloadsOf(last.frames));
    ReasonsAppend(classify, before.raws, last.raws);
    hide ReasonsIn, PayloadsOf;
  }

  /** How many failures the classifier finds in all that the attempt bound at b has heard. */
  function Failures(es: seq<Event>, b: nat, n: nat, id: string, json: Sse.Json, classify: Classifier): nat
    requires b < n <= |es|
  {
    |Found(classify, Sse.FeedAll(json, Heard(es, b + 1, n, id)))|
  }

  lemma FailsIfFound(s: State, e: Event, id: string)
    requires Hears(e, id) && id in s.requests
    ensures FailsAt(s, e, id) <==> |Found(e.act.classify, Sse.Feed(e.act.json, s.requests[id].buffer, e.act.chunk))| > 0
  {
    hide Sse.Feed, ReasonsIn, PayloadsOf;
  }

  lemma FailuresNext(es: seq<Event>, b: nat, n: nat, id: string, json: Sse.Json, classify: Classifier)
    requires b + 1 < n <= |es| && BindsAt(At(es, b), es[b], id) && NotRenewed(es, b + 1, n, id)
    requires SameReader(es, b + 1, n, id, json, classify)
    ensures Failures(es, b, n - 1, id, json, classify) <= Failures(es, b, n, id, json, classify)
    ensures FailsAt(At(es, n - 1), es[n - 1], id)
       <==> Failures(es, b, n - 1, id, json, classify) != Failures(es, b, n, id, json, classify)
  {
    hide At, Renews, BindsAt, Sse.Feed, Sse.FeedAll, Found, FailuresIn;
    HeardNext(es, b + 1, n, id);
    if Hears(es[n - 1], id) {
      BufferIsCarry(es, b, n - 1, id, json, classify);
      FailsIfFound(At(es, n - 1), es[n - 1], id);
      FeedNext(json, Heard(es, b + 1, n - 1, id), es[n - 1].act.chunk);
      FoundNext(classify, Sse.FeedAll(json, Heard(es, b + 1, n - 1, id)),
                Sse.Feed(json, At(es, n - 1).requests[id].buffer, es[n - 1].act.chunk));
    }
  }

  /** A stretch of a run sees no failure exactly if the number of failures found does not grow over it. */
  lemma {:induction false} FailuresAreSeen(es: seq<Event>, b: nat, m: nat, n: nat, id: string, json: Sse.Json,
                                           classify: Classifier)
    requires b < m <= n <= |es| && BindsAt(At(es, b), es[b], id) && NotRenewed(es, b + 1, n, id)
    requires SameReader(es, b + 1, n, id, json, classify)
    ensures Failures(es, b, m, id, json, classify) <= Failures(es, b, n, id, json, classify)
    ensures NotFailed(es, m, n, id)
       <==> Failures(es, b, m, id, json, classify) == Failures(es, b, n, id, json, classify)
  {
    hide At, Renews, BindsAt, FailsAt, Failures;
    if m < n {
      FailuresAreSeen(es, b, m, n - 1, id, json, classify);
      FailuresNext(es, b, n, id, json, classify);
    }
  }

  /** In the whole attempt no failure is seen exactly if nothing that the reader hands on classifies as one,
      whatever it drops and however the host cuts the stream. */
  lemma NotFailedIffNothingFound(es: seq<Event>, b: nat, n: nat, id: string, json: Sse.Json, classify: Classifier)
    requires b < n <= |es| && BindsAt(At(es, b), es[b], id) && NotRenewed(es, b + 1, n, id)
    requires SameReader(es, b + 1, n, id, json, classify)
    ensures NotFailed(es, b + 1, n, id) <==> Found(classify, Sse.FeedAll(json, Heard(es, b + 1, n, id))) == []
  {
    hide At, Renews, BindsAt, FailsAt, Sse.FeedAll, Found;
    FailuresAreSeen(es, b, b + 1, n, id, json, classify);
    NothingFed(json);
    FoundNothing(classify);
  }

  // ----- what stays staged -----

  /** The candidate of id stays as it is. */
  predicate StaysStaged(s: State, s': State, id: string) {
    id in s.candidates ==> id in s'.candidates && s'.candidates[id] == s.candidates[id]
  }

  lemma BindSpares(s: State, e: Event, id: string)
    requires e.act.Bind? && !BindsAt(s, e, id)
    ensures StaysStaged(s, BindStep(s, e.act.id, e.act.account, e.act.model, e.act.requested), id)
  {
    hide Binds, KeyOf;
  }

  lemma ObserveSpares(s: State, e: Event, id: string)
    requires e.act.Observe? && !FailsAt(s, e, id)
    ensures StaysStaged(s, ObserveStep(s, e.act.id, e.act.chunk, e.act.json, e.act.classify), id)
  {
    hide FailuresIn, RequeuedAll, Sse.Feed;
  }

  lemma CaptureSpares(s: State, e: Event, id: string)
    requires e.act.Capture? && !StagesAt(s, e, id)
    ensures StaysStaged(s, CaptureStep(s, e.at, e.act.id, e.act.header), id)
  {
    hide Captured;
  }

  lemma DetachSpares(s: State, other: string, id: string)
    requires other != id
    ensures StaysStaged(s, DetachStep(s, other), id)
  {
    hide Requeued;
  }

  lemma CompleteSpares(s: State, e: Event, id: string)
    requires e.act.Complete? && e.act.id != id
    ensures StaysStaged(s, CompleteStep(s, e.at, e.act.id, e.act.outcome, e.act.code, e.act.error), id)
  {
    hide CompletionQueue, CompletionPromotes;
  }

  /** Only a renewal, another capture or a failure takes a staged state away. */
  lemma CandidateStays(s: State, e: Event, id: string)
    requires !Renews(s, e, id) && !StagesAt(s, e, id) && !FailsAt(s, e, id)
    ensures StaysStaged(s, Step(s, e), id)
  {
    hide Step, BindsAt, StagesAt, FailsAt, BindStep, ObserveStep, CaptureStep, DetachStep, CompleteStep, StaysStaged;
    StepIs(s, e);
    if e.act.Bind? {
      BindSpares(s, e, id);
    } else if e.act.Observe? {
      ObserveSpares(s, e, id);
    } else if e.act.Capture? {
      CaptureSpares(s, e, id);
    } else if e.act.Detach? {
      DetachSpares(s, e.act.id, id);
    } else if e.act.Complete? {
      CompleteSpares(s, e, id);
    } else {
      OtherSpares(s, e, id);
    }
  }

  lemma OtherSpares(s: State, e: Event, id: string)
    requires !OfHook(e.act) && !Bumps(e)
    ensures StaysStaged(s, Step(s, e), id)
  {
    hide Step;
    StepFootprint(s, e);
  }

  lemma StagingStages(s: State, e: Event, id: string)
    requires StagesAt(s, e, id)
    ensures id in Step(s, e).candidates && Step(s, e).candidates[id] == Captured(s, e.at, id, e.act.header).value
  {
    hide Step, Captured;
    StepIs(s, e);
  }

  predicate StagesOnce(es: seq<Event>, m: nat, n: nat, id: string)
    requires m < n <= |es|
  {
    StagesAt(At(es, m), es[m], id) && forall j | m < j < n :: !StagesAt(At(es, j), es[j], id)
  }

  /** What a capture staged is staged later exactly if no failure was seen since. */
  lemma {:induction false} StagedIffNotFailed(es: seq<Event>, m: nat, n: nat, id: string)
    requires m < n <= |es| && StagesOnce(es, m, n, id) && NotRenewed(es, m + 1, n, id)
    ensures id in At(es, n).candidates <==> NotFailed(es, m + 1, n, id)
    ensures id in At(es, n).candidates ==>
              At(es, n).candidates[id] == Captured(At(es, m), es[m].at, id, es[m].act.header).value
  {
    hide At, Step, Renews, FailsAt, StagesAt, Captured;
    AtNext(es, n - 1);
    if n == m + 1 {
      StagingStages(At(es, m), es[m], id);
    } else {
      StagedIffNotFailed(es, m, n - 1, id);
      assert !Renews(At(es, n - 1), es[n - 1], id) && !StagesAt(At(es, n - 1), es[n - 1], id);
      CandidateStep(At(es, n - 1), es[n - 1], id);
      if id in At(es, n - 1).candidates && !FailsAt(At(es, n - 1), es[n - 1], id) {
        CandidateStays(At(es, n - 1), es[n - 1], id);
      }
    }
  }

  /** When does a success promote what its attempt captured? Exactly if the reader found no failure in what it
      was handed since the capture, and the state is still fresh and newer than the cached one. */
  lemma PromotesIffNothingFound(es: seq<Event>, b: nat, m: nat, n: nat, now: Time, id: string, json: Sse.Json,
                                classify: Classifier)
    requires b < m < n <= |es| && BindsAt(At(es, b), es[b], id) && NotRenewed(es, b + 1, n, id)
    requires StagesOnce(es, m, n, id) && SameReader(es, b + 1, n, id, json, classify)
    ensures var c := Captured(At(es, m), es[m].at, id, es[m].act.header).value;
            CompletionPromotes(At(es, n), now, id, Succeeded)
            <==> && Failures(es, b, m + 1, id, json, classify) == Failures(es, b, n, id, json, classify)
                 && At(es, n).accepting && Fresh(c.state, now) && Newer(At(es, n).current, c.key, c.state)
  {
    hide At, Renews, BindsAt, FailsAt, Captured, Failures, NotFailed, StagesOnce, SameReader, Fresh, Newer;
    FailuresAreSeen(es, b, m + 1, n, id, json, classify);
    LaterNotRenewed(es, b + 1, m + 1, n, id);
    StagedIffNotFailed(es, m, n, id);
  }

  lemma LaterNotRenewed(es: seq<Event>, i: nat, m: nat, n: nat, id: string)
    requires i <= m && n <= |es| && NotRenewed(es, i, n, id)
    ensures NotRenewed(es, m, n, id)
  {
    hide At, Renews;
  }

  lemma FoundNothing(classify: Classifier)
    ensures Found(classify, Sse.Observed([], [], "")) == []
  {
  }

  lemma {:induction false} NoReasonNoFailure(classify: Classifier, frames: seq<string>)
    ensures ReasonsIn(classify, PayloadsOf(frames)) == []
       <==> forall i :: 0 <= i < |frames| ==> classify(Sse.Payload(frames[i])).None?
  {
    hide Sse.Payload;
    if frames != [] {
      NoReasonNoFailure(classify, frames[1..]);
      assert PayloadsOf(frames)[1..] == PayloadsOf(frames[1..]);
      assert forall i :: 1 <= i < |frames| ==> frames[i] == frames[1..][i - 1];
    }
  }

  /** What `SplitInvariance` asks for: non-empty chunks that leave the buffer room, no CR CR LF before the last one,
      and after none of them a JSON text pending. */
  ghost predicate ReadsAsWhole(json: Sse.Json, chunks: seq<string>) {
    && (forall j :: 0 <= j < |chunks| ==> chunks[j] != "")
    && (chunks != [] ==> Sse.Clean(Sse.Concat(chunks[..|chunks| - 1])))
    && Sse.Fits(chunks) && Sse.Framed(json, chunks)
  }

  /** Does a frame of the whole stream classify as a failure? */
  ghost predicate FrameFails(classify: Classifier, stream: string) {
    exists i :: 0 <= i < |Sse.Whole(stream).frames| && classify(Sse.Payload(Sse.Whole(stream).frames[i])).Some?
  }

  /** On a stream that is read as a whole an attempt sees a failure exactly if a frame of the stream is one. */
  lemma FailsIffFrameFails(es: seq<Event>, b: nat, n: nat, id: string, json: Sse.Json, classify: Classifier)
    requires b < n <= |es| && BindsAt(At(es, b), es[b], id) && NotRenewed(es, b + 1, n, id)
    requires SameReader(es, b + 1, n, id, json, classify) && ReadsAsWhole(json, Heard(es, b + 1, n, id))
    ensures NotFailed(es, b + 1, n, id) <==> !FrameFails(classify, Sse.Concat(Heard(es, b + 1, n, id)))
  {
    hide At, BindsAt, Renews, FailsAt, Sse.FeedAll, Sse.Fits, Sse.Framed, Sse.Clean, Sse.Concat, Sse.Payload, Heard,
      Sse.Frames, Sse.Normalize, PayloadsOf;
    var chunks := Heard(es, b + 1, n, id);
    NotFailedIffNothingFound(es, b, n, id, json, classify);
    Sse.SplitInvariance(json, chunks);
    NoReasonNoFailure(classify, Sse.Whole(Sse.Concat(chunks)).frames);
  }

  predicate Quiet(es: seq<Event>, i: nat, n: nat, id: string)
    requires n <= |es|
  {
    forall j | i <= j < n :: !Hears(es[j], id)
  }

  lemma QuietNotFailed(es: seq<Event>, b: nat, m: nat, n: nat, id: string)
    requires b <= m <= n <= |es| && Quiet(es, b, m, id) && NotFailed(es, m, n, id)
    ensures NotFailed(es, b, n, id)
  {
    hide At;
    forall j | b <= j < n ensures !FailsAt(At(es, j), es[j], id) {
      if j < m {
        assert !Hears(es[j], id);
      }
    }
  }

  /** A state that is staged for promotion belongs to a stream without a failing frame, if the headers of the
      attempt came before its stream and the stream was read as a whole. */
  lemma FailedStreamNeverPromotes(es: seq<Event>, b: nat, m: nat, n: nat, id: string, json: Sse.Json,
                                  classify: Classifier)
    requires b < m < n <= |es| && BoundBy(es, b, n, id) && StagedBy(es, m, n, id) && Quiet(es, b + 1, m + 1, id)
    requires SameReader(es, b + 1, n, id, json, classify) && ReadsAsWhole(json, Heard(es, b + 1, n, id))
    ensures !FrameFails(classify, Sse.Concat(Heard(es, b + 1, n, id)))
  {
    hide At, BindsAt, StagesAt, Captured, KeyOf, NotRenewed, NotFailed, Quiet, ReadsAsWhole, FrameFails, SameReader,
      Heard;
    QuietNotFailed(es, b + 1, m + 1, n, id);
    FailsIffFrameFails(es, b, n, id, json, classify);
  }

  // ----- the failure that is not seen -----

  /** A chunk for which the buffer has no room is dropped with the buffer, unread. */
  lemma OverflowGoesUnread(s: State, id: string, chunk: string, json: Sse.Json, classify: Classifier)
    requires id in s.requests && chunk != "" && |s.requests[id].buffer| + |chunk| > Sse.CARRY_LIMIT
    ensures FailuresIn(s, id, chunk, json, classify) == []
    ensures ObserveStep(s, id, chunk, json, classify)
         == s.(requests := s.requests[id := s.requests[id].(buffer := "")])
  {
  }

  /** Bound, captured, then one chunk. */
  function OverflowRun(chunk: string, json: Sse.Json, classify: Classifier): (es: seq<Event>)
    ensures |es| == 4 && es[..3] == Alias.AliasRun()[..3]
  {
    Alias.AliasRun()[..3] + [Event(Alias.ALIAS_TIME, Observe("r", chunk, json, classify))]
  }

  lemma OverflowHeard(chunk: string, json: Sse.Json, classify: Classifier)
    ensures Heard(OverflowRun(chunk, json, classify), 2, 4, "r") == [chunk]
  {
    var es := OverflowRun(chunk, json, classify);
    assert Heard(es, 2, 2, "r") == [] && Heard(es, 2, 3, "r") == [];
  }

  lemma OverflowStep(s: State, chunk: string, json: Sse.Json, classify: Classifier)
    requires |chunk| > Sse.CARRY_LIMIT && "r" in s.requests && Alias.AliasAt(s, map[])
    ensures var s' := ObserveStep(s, "r", chunk, json, classify);
            Alias.AliasAt(s', map[]) && s'.candidates == s.candidates
  {
    hide ObserveStep, Prepare;
    OverflowGoesUnread(s, "r", chunk, json, classify);
  }

  lemma OverflowArrives(chunk: string, json: Sse.Json, classify: Classifier)
    requires |chunk| > Sse.CARRY_LIMIT
    ensures var s := At(OverflowRun(chunk, json, classify), 4);
            && Alias.AliasAt(s, map[])
            && "r" in s.candidates && s.candidates["r"] == Candidate("a", Alias.ALIAS_KEY, Alias.AliasState())
  {
    hide At, Step, ObserveStep, Alias.AliasAt, Alias.AliasState, Alias.AliasToken;
    var es := OverflowRun(chunk, json, classify);
    Alias.CapturedAlias(es);
    AtNext(es, 3);
    StepIs(At(es, 3), es[3]);
    OverflowStep(At(es, 3), chunk, json, classify);
  }

  const FAILING := "data:x\n\n"

  lemma FailingFirst(rest: string)
    ensures var frames := Sse.Whole(FAILING + rest).frames; frames != [] && Sse.Payload(frames[0]) == "x"
  {
    FailingNormal();
    Sse.NormalizeSplits(FAILING, rest);
    FailingFrame(Sse.Normalize(rest));
    FailingPayload();
    hide Sse.Normalize, Sse.Frames, Sse.Payload;
  }

  lemma FailingNormal()
    ensures Sse.Normalize(FAILING) == FAILING
  {
    hide Sse.Normalize;
    Sse.NoPairIsNormal(FAILING);
  }

  /** The blank line after it closes the first frame, whatever follows. */
  lemma FailingFrame(rest: string)
    ensures var frames := Sse.Frames(FAILING + rest).frames; frames != [] && frames[0] == "data:x"
  {
    var s := FAILING + rest;
    assert Sse.BlankAt(s, 6);
    forall i | 0 <= i < 6 ensures !Sse.BlankAt(s, i) {}
    assert Sse.Break(s) == Some(6);
  }

  lemma {:induction false} OneLine(s: string)
    requires '\n' !in s
    ensures Sse.SplitLines(s) == [s]
  {
    if s != "" {
      OneLine(s[1..]);
      assert [s[1..]][1..] == [] && [s[0]] + s[1..] == s;
    }
  }

  lemma FailingPayload()
    ensures Sse.Payload("data:x") == "x"
  {
    hide Sse.SplitLines;
    OneLine("data:x");
    var text := "data:x"[5..];
    assert text == "x" && text[0] != " "[0];
    assert Sse.LineData("data:x") == ["x"];
    assert ["data:x"][1..] == [] && Sse.DataOf([]) == [];
  }

  lemma ConcatOne(chunk: string)
    ensures Sse.Concat([chunk]) == chunk
  {
    assert [chunk][..0] == [] && "" + chunk == chunk;
  }

  lemma FailingStream(rest: string, classify: Classifier)
    requires classify("x").Some?
    ensures FrameFails(classify, FAILING + rest)
  {
    hide Sse.Whole, Sse.Payload;
    FailingFirst(rest);
    assert classify(Sse.Payload(Sse.Whole(FAILING + rest).frames[0])).Some?;
  }

  lemma CandidatePromotes(s: State)
    requires Alias.AliasAt(s, map[]) && "r" in s.candidates
    requires s.candidates["r"] == Candidate("a", Alias.ALIAS_KEY, Alias.AliasState())
    ensures CompletionPromotes(s, Alias.ALIAS_TIME, "r", Succeeded)
  {
    hide Prepare, Alias.AliasToken;
  }

  /** Where the plain claim fails: the first frame of this stream is a failure, the host hands the stream over in
      one chunk that the buffer has no room for, and the state is promoted. */
  lemma OverflowPromotes(rest: string, json: Sse.Json, classify: Classifier)
    requires |rest| >= Sse.CARRY_LIMIT && classify("x").Some?
    ensures var es := OverflowRun(FAILING + rest, json, classify);
            && FrameFails(classify, Sse.Concat(Heard(es, 2, 4, "r")))
            && CompletionPromotes(At(es, 4), Alias.ALIAS_TIME, "r", Succeeded)
  {
    hide At, Heard, OverflowRun, FrameFails, CompletionPromotes, Alias.AliasAt;
    var chunk := FAILING + rest;
    OverflowArrives(chunk, json, classify);
    OverflowHeard(chunk, json, classify);
    ConcatOne(chunk);
    FailingStream(rest, classify);
    CandidatePromotes(At(OverflowRun(chunk, json, classify), 4));
  }
}
