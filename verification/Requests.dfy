/** What a request can put into the cache, and what the cache can put into a request. */
module Requests {
  import opened Text
  import opened Machine
  import opened Frames
  import opened Invariant
  import Sse

  // ----- attempt isolation -----

  /** A request attempt gets its credential. */
  predicate BindsAt(s: State, e: Event, id: string) {
    e.act.Bind? && e.act.id == id && Binds(s, id, e.act.account, e.act.model, e.act.requested)
  }

  /** The attempt behind a request id ends or is replaced. */
  predicate Renews(s: State, e: Event, id: string) {
    || BindsAt(s, e, id) || (e.act.Detach? && e.act.id == id) || (e.act.Complete? && e.act.id == id) || Bumps(e)
  }

  /** A failure is seen in the stream of the request. */
  predicate FailsAt(s: State, e: Event, id: string) {
    e.act.Observe? && e.act.id == id && FailuresIn(s, id, e.act.chunk, e.act.json, e.act.classify) != []
  }

  /** The requests after a step: the one just bound, or one of before that nothing renewed. */
  predicate RequestKept(s: State, s': State, e: Event, id: string) {
    id in s'.requests ==>
      if BindsAt(s, e, id)
      then s'.requests[id].key == KeyOf(e.act.account, e.act.model) && s'.requests[id].account == e.act.account
      else !Renews(s, e, id) && id in s.requests && s'.requests[id].key == s.requests[id].key
           && s'.requests[id].account == s.requests[id].account
  }

  lemma BindRequests(s: State, e: Event, id: string)
    requires e.act.Bind?
    ensures RequestKept(s, BindStep(s, e.act.id, e.act.account, e.act.model, e.act.requested), e, id)
  {
    hide Binds, Trim, Accepts;
  }

  lemma ObserveRequests(s: State, e: Event, id: string)
    requires e.act.Observe?
    ensures RequestKept(s, ObserveStep(s, e.act.id, e.act.chunk, e.act.json, e.act.classify), e, id)
  {
    hide FailuresIn, RequeuedAll, Sse.Feed, Accepts, Binds;
  }

  lemma GoneRequests(s: State, e: Event, id: string)
    requires e.act.Detach? || e.act.Complete?
    ensures RequestKept(s, Step(s, e), e, id)
  {
    hide Step, Requeued, CompletionQueue, CompletionPromotes, Accepts, Binds;
    StepIs(s, e);
  }

  lemma BumpedRequests(s: State, e: Event, id: string)
    requires Bumps(e)
    ensures id !in Step(s, e).requests && id !in Step(s, e).candidates
  {
    hide Step, Accepts, ConfigureStep;
    StepIs(s, e);
    if e.act.Configure? {
      ConfiguredParts(s, e.act.raw, e.act.file);
    }
  }

  lemma RequestStep(s: State, e: Event, id: string)
    ensures RequestKept(s, Step(s, e), e, id)
  {
    hide Step, RequestKept, Renews, BindStep, ObserveStep, BindsAt, Accepts;
    if e.act.Bind? {
      StepIs(s, e);
      BindRequests(s, e, id);
    } else if e.act.Observe? {
      StepIs(s, e);
      ObserveRequests(s, e, id);
    } else if e.act.Detach? || e.act.Complete? {
      GoneRequests(s, e, id);
    } else {
      OtherRequests(s, e, id);
    }
  }

  lemma OtherRequests(s: State, e: Event, id: string)
    requires !e.act.Bind? && !e.act.Observe? && !e.act.Detach? && !e.act.Complete?
    ensures RequestKept(s, Step(s, e), e, id)
  {
    hide Step, CaptureStep, Accepts;
    if Bumps(e) {
      BumpedRequests(s, e, id);
    } else if e.act.Capture? {
      StepIs(s, e);
      CaptureFrame(s, e.at, e.act.id, e.act.header);
    } else {
      StepFootprint(s, e);
    }
  }

  predicate NotRenewed(es: seq<Event>, i: nat, n: nat, id: string)
    requires n <= |es|
  {
    forall j | i <= j < n :: !Renews(At(es, j), es[j], id)
  }

  lemma NotRenewedOn(es: seq<Event>, i: nat, n: nat, id: string)
    requires n < |es| && NotRenewed(es, i, n, id) && !Renews(At(es, n), es[n], id)
    ensures NotRenewed(es, i, n + 1, id)
  {
    hide At, Renews;
  }

  lemma NothingRenewed(es: seq<Event>, n: nat, id: string)
    requires n <= |es|
    ensures NotRenewed(es, n, n, id)
  {
    hide At, Renews;
  }

  /** b is the bind of the attempt that id stands for after n events. */
  predicate BoundBy(es: seq<Event>, b: nat, n: nat, id: string)
    requires n <= |es|
  {
    && b < n && BindsAt(At(es, b), es[b], id) && id in At(es, n).requests
    && At(es, n).requests[id].account == es[b].act.account
    && At(es, n).requests[id].key == KeyOf(es[b].act.account, es[b].act.model)
    && NotRenewed(es, b + 1, n, id)
  }

  lemma JustBound(es: seq<Event>, n: nat, id: string)
    requires 0 < n <= |es| && id in At(es, n).requests && BindsAt(At(es, n - 1), es[n - 1], id)
    ensures BoundBy(es, n - 1, n, id)
  {
    hide At, Step, Renews, Binds, NotRenewed;
    AtNext(es, n - 1);
    RequestStep(At(es, n - 1), es[n - 1], id);
    NothingRenewed(es, n, id);
  }

  lemma StaysBound(es: seq<Event>, b: nat, n: nat, id: string)
    requires 0 < n <= |es| && id in At(es, n).requests && BoundBy(es, b, n - 1, id)
    requires !BindsAt(At(es, n - 1), es[n - 1], id)
    ensures BoundBy(es, b, n, id)
  {
    hide At, Step, Renews, BindsAt, NotRenewed, KeyOf;
    AtNext(es, n - 1);
    RequestStep(At(es, n - 1), es[n - 1], id);
    NotRenewedOn(es, b + 1, n - 1, id);
  }

  lemma {:induction false} RequestIsBound(es: seq<Event>, n: nat, id: string)
    requires n <= |es| && id in At(es, n).requests
    ensures exists b :: BoundBy(es, b, n, id)
  {
    hide Step, Renews, BindsAt, BoundBy;
    assert n > 0;
    RequestStep(At(es, n - 1), es[n - 1], id);
    if BindsAt(At(es, n - 1), es[n - 1], id) {
      JustBound(es, n, id);
    } else {
      RequestIsBound(es, n - 1, id);
      var b :| BoundBy(es, b, n - 1, id);
      StaysBound(es, b, n, id);
    }
  }

  /** A capture stages what the present response carries. */
  predicate StagesAt(s: State, e: Event, id: string) {
    e.act.Capture? && e.act.id == id && Captured(s, e.at, id, e.act.header).Some?
  }

  /** The candidates after a step: the one just staged, or one of before that nothing discarded. */
  predicate CandidateKept(s: State, s': State, e: Event, id: string) {
    id in s'.candidates ==>
      if StagesAt(s, e, id) then s'.candidates[id] == Captured(s, e.at, id, e.act.header).value
      else !Renews(s, e, id) && !FailsAt(s, e, id) && id in s.candidates && s'.candidates[id] == s.candidates[id]
  }

  lemma BindCandidates(s: State, e: Event, id: string)
    requires e.act.Bind?
    ensures CandidateKept(s, BindStep(s, e.act.id, e.act.account, e.act.model, e.act.requested), e, id)
  {
    hide Binds, Trim, Accepts;
  }

  lemma ObserveCandidates(s: State, e: Event, id: string)
    requires e.act.Observe?
    ensures CandidateKept(s, ObserveStep(s, e.act.id, e.act.chunk, e.act.json, e.act.classify), e, id)
  {
    hide RequeuedAll, Sse.Feed, Accepts, Binds, ReasonsIn;
  }

  lemma CaptureCandidates(s: State, e: Event, id: string)
    requires e.act.Capture?
    ensures CandidateKept(s, CaptureStep(s, e.at, e.act.id, e.act.header), e, id)
  {
    hide Captured, Accepts, Binds;
  }

  lemma GoneCandidates(s: State, e: Event, id: string)
    requires e.act.Detach? || e.act.Complete?
    ensures CandidateKept(s, Step(s, e), e, id)
  {
    hide Step, Requeued, CompletionQueue, CompletionPromotes, Accepts, Binds;
    StepIs(s, e);
  }

  lemma OtherCandidates(s: State, e: Event, id: string)
    requires !OfHook(e.act)
    ensures CandidateKept(s, Step(s, e), e, id)
  {
    hide Step, Accepts;
    if Bumps(e) {
      BumpedRequests(s, e, id);
    } else {
      StepFootprint(s, e);
    }
  }

  lemma CandidateStep(s: State, e: Event, id: string)
    ensures CandidateKept(s, Step(s, e), e, id)
  {
    hide Step, CandidateKept, BindStep, ObserveStep, CaptureStep;
    if e.act.Bind? {
      StepIs(s, e);
      BindCandidates(s, e, id);
    } else if e.act.Observe? {
      StepIs(s, e);
      ObserveCandidates(s, e, id);
    } else if e.act.Capture? {
      StepIs(s, e);
      CaptureCandidates(s, e, id);
    } else if e.act.Detach? || e.act.Complete? {
      GoneCandidates(s, e, id);
    } else {
      OtherCandidates(s, e, id);
    }
  }

  predicate NotFailed(es: seq<Event>, i: nat, n: nat, id: string)
    requires n <= |es|
  {
    forall j | i <= j < n :: !FailsAt(At(es, j), es[j], id)
  }

  lemma NotFailedOn(es: seq<Event>, i: nat, n: nat, id: string)
    requires n < |es| && NotFailed(es, i, n, id) && !FailsAt(At(es, n), es[n], id)
    ensures NotFailed(es, i, n + 1, id)
  {
    hide At, FailsAt;
  }

  /** m is the capture that staged what id has after n events: no renewal, no failure since. */
  predicate StagedBy(es: seq<Event>, m: nat, n: nat, id: string)
    requires n <= |es|
  {
    && m < n && StagesAt(At(es, m), es[m], id) && id in At(es, n).candidates
    && At(es, n).candidates[id] == Captured(At(es, m), es[m].at, id, es[m].act.header).value
    && NotRenewed(es, m + 1, n, id) && NotFailed(es, m + 1, n, id)
  }

  lemma JustStaged(es: seq<Event>, n: nat, id: string)
    requires 0 < n <= |es| && id in At(es, n).candidates && StagesAt(At(es, n - 1), es[n - 1], id)
    ensures StagedBy(es, n - 1, n, id)
  {
    hide At, Step, Renews, FailsAt, Captured, NotRenewed;
    AtNext(es, n - 1);
    CandidateStep(At(es, n - 1), es[n - 1], id);
    NothingRenewed(es, n, id);
  }

  lemma StaysStaged(es: seq<Event>, m: nat, n: nat, id: string)
    requires 0 < n <= |es| && id in At(es, n).candidates && StagedBy(es, m, n - 1, id)
    requires !StagesAt(At(es, n - 1), es[n - 1], id)
    ensures StagedBy(es, m, n, id)
  {
    hide At, Step, Renews, FailsAt, Captured, NotRenewed, NotFailed, StagesAt;
    AtNext(es, n - 1);
    CandidateStep(At(es, n - 1), es[n - 1], id);
    NotRenewedOn(es, m + 1, n - 1, id);
    NotFailedOn(es, m + 1, n - 1, id);
  }

  lemma {:induction false} CandidateIsStaged(es: seq<Event>, n: nat, id: string)
    requires n <= |es| && id in At(es, n).candidates
    ensures exists m :: StagedBy(es, m, n, id)
  {
    hide Step, Renews, StagesAt, StagedBy, FailsAt;
    assert n > 0;
    CandidateStep(At(es, n - 1), es[n - 1], id);
    if StagesAt(At(es, n - 1), es[n - 1], id) {
      JustStaged(es, n, id);
    } else {
      CandidateIsStaged(es, n - 1, id);
      var m :| StagedBy(es, m, n - 1, id);
      StaysStaged(es, m, n, id);
    }
  }

  lemma BindRenews(s: State, e: Event, id: string)
    requires BindsAt(s, e, id)
    ensures Renews(s, e, id)
  {
  }

  lemma CaptureAfterBind(es: seq<Event>, b: nat, m: nat, n: nat, id: string)
    requires n <= |es| && BoundBy(es, b, n, id) && StagedBy(es, m, n, id)
    ensures b < m
  {
    hide At, Binds, Captured, NotFailed, KeyOf, Renews;
    if m < b {
      BindRenews(At(es, b), es[b], id);
      assert false;
    }
  }

  lemma CompletedState(s: State, e: Event)
    requires e.act.Complete? && CompletionPromotes(s, e.at, e.act.id, e.act.outcome)
    ensures var c := s.candidates[e.act.id]; Step(s, e).current == s.current[c.key := c.state]
  {
    hide Step, Fresh, Newer, CompletionQueue;
    StepIs(s, e);
  }

  /** What a completed request promotes came with its own attempt: it was captured after the last bind of
      the id, no failure was seen in the stream since, and it is stored under the account and model of
      that bind. */
  lemma AttemptIsolation(es: seq<Event>, n: nat)
    requires n < |es| && es[n].act.Complete?
    requires CompletionPromotes(At(es, n), es[n].at, es[n].act.id, es[n].act.outcome)
    ensures exists b: nat, m: nat :: b < m < n && BoundBy(es, b, n, es[n].act.id) && StagedBy(es, m, n, es[n].act.id)
              && var c := At(es, n).candidates[es[n].act.id];
                 && c.account == es[b].act.account && c.key == KeyOf(es[b].act.account, es[b].act.model)
                 && At(es, n + 1).current == At(es, n).current[c.key := c.state]
  {
    hide At, Step, Inv, KeyOf, NotRenewed, NotFailed, BindsAt, StagesAt, Newer, Fresh, Captured;
    var id := es[n].act.id;
    CompletedState(At(es, n), es[n]);
    Reachable(es, n);
    CandidateBound(At(es, n), id);
    AtNext(es, n);
    RequestIsBound(es, n, id);
    CandidateIsStaged(es, n, id);
    var b :| BoundBy(es, b, n, id);
    var m :| StagedBy(es, m, n, id);
    CaptureAfterBind(es, b, m, n, id);
  }

  /** In every reachable state a staged state belongs to a live binding of the same account and key. */
  lemma CandidateBound(s: State, id: string)
    requires Inv(s) && id in s.candidates
    ensures id in s.requests && s.requests[id].key == s.candidates[id].key
            && s.requests[id].account == s.candidates[id].account
  {
    hide ConfigOk, AllAllowed, TasksOk, FlightsOk, BindingOk, Allowed;
    assert StagedOk(s.config, s.requests, id, s.candidates[id]);
  }
}
