/** What makes a refresh pending: exactly the failures of bound requests, and the manual refresh. */
module Signals {
  import opened Text
  import opened Wrappers
  import opened Policy
  import opened Machine
  import opened Frames
  import Freshness
  import Sse
  import Streams

  // ----- failures of requests -----

  /** Updates of the account are on: its own flag decides, then the global one; without any they are on. */
  predicate SelfUpdates(cfg: Config, policy: Credential) {
    policy.autoUpdate == Some(true) || (policy.autoUpdate == None && cfg.autoUpdate != Some(false))
  }

  /** Failures of k are to be answered with a refresh. */
  predicate WantsRefresh(s: State, k: Key) {
    var policy := CredentialFor(s.config, k.account);
    && s.accepting && s.config.probe.enabled && s.config.probe.refreshOnErrors != Some(false)
    && policy.Some? && SelfUpdates(s.config, policy.value) && Matches(policy.value.models, k.model)
  }

  /** The texts that tell of an overload or a limit. */
  const TELLTALES := ["overload", "rate_limit", "usage_limit_reached", "insufficient_quota", "too many requests"]

  predicate Tells(message: string) {
    exists i | 0 <= i < |TELLTALES| :: Contains(Lower(message), TELLTALES[i])
  }

  /** A request bound to k is reported as failed, with a code or a message that a refresh may help against. */
  predicate FailsForGood(s: State, e: Event, k: Key) {
    && e.act.Complete? && e.act.outcome == Failed && e.act.id in s.requests && s.requests[e.act.id].key == k
    && (e.act.code in {429, 502, 503, 504} || Tells(e.act.error))
  }

  /** Something that the reader hands on of this chunk classifies as a failure. */
  predicate ChunkFails(e: Event, seen: Sse.Observed)
    requires e.act.Observe?
  {
    || (exists i | 0 <= i < |seen.frames| :: e.act.classify(Sse.Payload(seen.frames[i])).Some?)
    || (exists i | 0 <= i < |seen.raws| :: e.act.classify(seen.raws[i]).Some?)
  }

  /** The stream of a request bound to k shows a failure. */
  predicate StreamFails(s: State, e: Event, k: Key) {
    && e.act.Observe? && e.act.id in s.requests && s.requests[e.act.id].key == k
    && ChunkFails(e, Sse.Feed(e.act.json, s.requests[e.act.id].buffer, e.act.chunk))
  }

  /** A request id bound to k comes again with another credential. */
  predicate Retries(s: State, e: Event, k: Key) {
    e.act.Detach? && e.act.id in s.requests && s.requests[e.act.id].key == k
  }

  predicate Fails(s: State, e: Event, k: Key) {
    FailsForGood(s, e, k) || StreamFails(s, e, k) || Retries(s, e, k)
  }

  lemma UpdatesAre(cfg: Config, policy: Credential)
    ensures AutoUpdate(cfg, policy) <==> SelfUpdates(cfg, policy)
  {
  }

  lemma WantsAre(s: State, k: Key)
    ensures Queues(s, k) <==> WantsRefresh(s, k)
  {
    if CredentialFor(s.config, k.account).Some? {
      UpdatesAre(s.config, CredentialFor(s.config, k.account).value);
    }
    hide AutoUpdate, SelfUpdates, Matches, CredentialFor;
  }

  /** The pending refreshes after a failure of j. */
  lemma RequeuedIs(s: State, j: Key, reason: Reason, k: Key)
    ensures var queue := Requeued(s, j, reason);
            && (k in queue <==> k in s.refreshRequests || (j == k && WantsRefresh(s, k)))
            && (k in s.refreshRequests ==> queue[k] == s.refreshRequests[k])
            && (k in queue && k !in s.refreshRequests ==> queue[k] == reason)
  {
    WantsAre(s, j);
    hide Queues, WantsRefresh;
  }

  lemma ClassesAre(code: int, message: string)
    ensures FailureReason(code, message).Some? <==> code in {429, 502, 503, 504} || Tells(message)
    ensures code == 429 ==> FailureReason(code, message) == Some(RateLimit)
    ensures code in {502, 503, 504} ==> FailureReason(code, message) == Some(UpstreamUnavailable)
    ensures code !in {429, 502, 503, 504} && Tells(message) ==>
              FailureReason(code, message)
              == if Contains(Lower(message), "overload") then Some(Overload) else Some(RateLimit)
  {
    assert TELLTALES[0] == "overload" && TELLTALES[1] == "rate_limit" && TELLTALES[2] == "usage_limit_reached";
    assert TELLTALES[3] == "insufficient_quota" && TELLTALES[4] == "too many requests";
    hide Contains, Lower;
  }

  lemma RawsFail(classify: Classifier, texts: seq<string>)
    ensures ReasonsIn(classify, texts) == [] <==> forall i :: 0 <= i < |texts| ==> classify(texts[i]).None?
  {
    if texts != [] {
      RawsFail(classify, texts[1..]);
      assert forall i :: 1 <= i < |texts| ==> texts[i] == texts[1..][i - 1];
    }
  }

  lemma FailuresAre(s: State, e: Event)
    requires e.act.Observe? && e.act.id in s.requests
    ensures var seen := Sse.Feed(e.act.json, s.requests[e.act.id].buffer, e.act.chunk);
            FailuresIn(s, e.act.id, e.act.chunk, e.act.json, e.act.classify) != [] <==> ChunkFails(e, seen)
  {
    var seen := Sse.Feed(e.act.json, s.requests[e.act.id].buffer, e.act.chunk);
    Streams.NoReasonNoFailure(e.act.classify, seen.frames);
    RawsFail(e.act.classify, seen.raws);
    hide Sse.Feed, Sse.Payload, ReasonsIn, PayloadsOf;
  }

  // ----- the manual refresh -----

  /** A manual refresh takes k: the plugin accepts requests and probes, k is known and named, its policy updates
      itself and covers it, and neither a missing credential nor a probe under way, a back-off or the retry time
      stands against it. */
  predicate Picks(s: State, now: Time, sel: Selector, k: Key) {
    var policy := CredentialFor(s.config, k.account);
    && s.accepting && s.config.probe.enabled
    && (k in s.current || k in s.probeResults) && k !in s.probing
    && k.account != "" && k.model != "" && policy.Some?
    && (sel.all || k in sel.keys || k.account in sel.accounts || Lower(k.model) in sel.models)
    && SelfUpdates(s.config, policy.value) && Matches(policy.value.models, k.model)
    && (k in s.probeResults ==> s.probeResults[k] != AuthUnavailable)
    && (k in s.blockedUntil ==> s.blockedUntil[k] <= now)
    && (k in s.lastProbe ==> s.lastProbe[k] + Seconds(s.config.probe.retrySeconds) <= now)
  }

  lemma PicksAre(s: State, now: Time, sel: Selector, k: Key)
    ensures k in Queued(s, now, sel) <==> Picks(s, now, sel, k)
  {
    if CredentialFor(s.config, k.account).Some? {
      UpdatesAre(s.config, CredentialFor(s.config, k.account).value);
    }
    hide AutoUpdate, SelfUpdates, Matches, CredentialFor, Lower, Seconds;
  }

  lemma MarkIs<K>(m: map<K, Reason>, keys: set<K>, reason: Reason, k: K)
    ensures var marked := Mark(m, keys, reason);
            && (k in marked <==> k in m || k in keys)
            && (k in marked ==> marked[k] == if k in keys then reason else m[k])
  {
  }

  lemma NothingMarked<K>(m: map<K, Reason>, reason: Reason)
    ensures Mark(m, {}, reason) == m
  {
  }

  lemma NotedLast(history: seq<HistoryEntry>, entry: HistoryEntry)
    ensures var longer := AppendHistory(history, entry); longer != [] && longer[|longer| - 1] == entry
  {
  }

  /** A manual refresh makes exactly the picked keys pending, whatever was pending for them, and shows them as
      manual; it is noted, and without such a key it changes nothing. */
  lemma RefreshIsExact(s: State, now: Time, sel: Selector, k: Key)
    ensures var s' := RefreshStep(s, now, sel);
            && (k in s'.refreshRequests <==> k in s.refreshRequests || Picks(s, now, sel, k))
            && (k in s'.refreshRequests ==>
                  s'.refreshRequests[k] == if Picks(s, now, sel, k) then Manual else s.refreshRequests[k])
            && (k in s'.probeReasons <==> k in s.probeReasons || Picks(s, now, sel, k))
            && (k in s'.probeReasons ==>
                  s'.probeReasons[k] == if Picks(s, now, sel, k) then Manual else s.probeReasons[k])
            && (Picks(s, now, sel, k) ==>
                  s'.history != [] && s'.history[|s'.history| - 1] == ManualRefresh(now))
  {
    PicksAre(s, now, sel, k);
    var keys := Queued(s, now, sel);
    MarkIs(s.refreshRequests, keys, Manual, k);
    MarkIs(s.probeReasons, keys, Manual, k);
    NotedLast(s.history, ManualRefresh(now));
    hide Queued, Picks, Mark, AppendHistory;
  }

  lemma RefreshOfNothing(s: State, now: Time, sel: Selector)
    requires forall k :: !Picks(s, now, sel, k)
    ensures RefreshStep(s, now, sel) == s
  {
    forall k ensures k !in Queued(s, now, sel) { PicksAre(s, now, sel, k); }
    hide Picks, Queued, Mark, AppendHistory;
    assert Queued(s, now, sel) == {};
    NothingMarked(s.refreshRequests, Manual);
    NothingMarked(s.probeReasons, Manual);
  }

  // ----- what becomes pending -----

  /** The reason that a failure gives. */
  predicate GivenReason(e: Event, reason: Reason) {
    && (e.act.Detach? ==> reason == CredentialRetry)
    && (e.act.Complete? && e.act.code == 429 ==> reason == RateLimit)
    && (e.act.Complete? && e.act.code in {502, 503, 504} ==> reason == UpstreamUnavailable)
    && (e.act.Refresh? ==> reason == Manual)
  }

  /** k is pending after the step exactly if it was before or the event calls for it. */
  predicate BecomesPending(s: State, s': State, e: Event, k: Key) {
    && (k in s'.refreshRequests <==>
          || k in s.refreshRequests
          || (Fails(s, e, k) && WantsRefresh(s, k))
          || (e.act.Refresh? && Picks(s, e.at, e.act.sel, k)))
    && (k in s'.refreshRequests && k !in s.refreshRequests ==> GivenReason(e, s'.refreshRequests[k]))
  }

  lemma DetachQueue(s: State, id: string)
    ensures DetachStep(s, id).refreshRequests
         == if id in s.requests then Requeued(s, s.requests[id].key, CredentialRetry) else s.refreshRequests
  {
    hide Requeued;
  }

  lemma DetachQueues(s: State, e: Event, k: Key)
    requires e.act.Detach?
    ensures BecomesPending(s, DetachStep(s, e.act.id), e, k)
  {
    DetachQueue(s, e.act.id);
    if e.act.id in s.requests {
      RequeuedIs(s, s.requests[e.act.id].key, CredentialRetry, k);
    }
    hide Requeued, WantsRefresh, DetachStep, Tells, ChunkFails, Picks;
  }

  lemma CompleteQueue(s: State, now: Time, id: string, code: int, error: string)
    ensures CompleteStep(s, now, id, Failed, code, error).refreshRequests
         == if id in s.requests && FailureReason(code, error).Some?
            then Requeued(s, s.requests[id].key, FailureReason(code, error).value) else s.refreshRequests
  {
    hide Requeued, FailureReason, Fresh, Newer;
  }

  lemma CompleteQueues(s: State, e: Event, k: Key)
    requires e.act.Complete? && e.act.outcome == Failed
    ensures BecomesPending(s, CompleteStep(s, e.at, e.act.id, e.act.outcome, e.act.code, e.act.error), e, k)
  {
    ClassesAre(e.act.code, e.act.error);
    CompleteQueue(s, e.at, e.act.id, e.act.code, e.act.error);
    var reason := FailureReason(e.act.code, e.act.error);
    if e.act.id in s.requests && reason.Some? {
      RequeuedIs(s, s.requests[e.act.id].key, reason.value, k);
    }
    hide Requeued, WantsRefresh, FailureReason, Tells, ChunkFails, Picks, CompleteStep;
  }

  lemma ObserveQueue(s: State, e: Event)
    requires e.act.Observe?
    ensures var reasons := FailuresIn(s, e.act.id, e.act.chunk, e.act.json, e.act.classify);
            ObserveStep(s, e.act.id, e.act.chunk, e.act.json, e.act.classify).refreshRequests
            == if e.act.id in s.requests && reasons != [] then Requeued(s, s.requests[e.act.id].key, reasons[0])
               else s.refreshRequests
  {
    hide Requeued, FailuresIn, Sse.Feed;
  }

  lemma ObserveQueues(s: State, e: Event, k: Key)
    requires e.act.Observe?
    ensures BecomesPending(s, ObserveStep(s, e.act.id, e.act.chunk, e.act.json, e.act.classify), e, k)
  {
    ObserveQueue(s, e);
    if e.act.id in s.requests {
      FailuresAre(s, e);
      var reasons := FailuresIn(s, e.act.id, e.act.chunk, e.act.json, e.act.classify);
      if reasons != [] {
        RequeuedIs(s, s.requests[e.act.id].key, reasons[0], k);
      }
    }
    hide Requeued, WantsRefresh, FailuresIn, ChunkFails, Sse.Feed, ObserveStep, Tells, Picks;
  }

  lemma RefreshQueues(s: State, e: Event, k: Key)
    requires e.act.Refresh?
    ensures BecomesPending(s, RefreshStep(s, e.at, e.act.sel), e, k)
  {
    RefreshIsExact(s, e.at, e.act.sel, k);
    hide RefreshStep, Picks;
  }

  /** Besides these, an event may end a pending refresh, but it makes none. */
  lemma OthersQueueNothing(s: State, e: Event, k: Key)
    requires !e.act.Detach? && !e.act.Observe? && !e.act.Refresh? && !(e.act.Complete? && e.act.outcome == Failed)
    ensures k in Step(s, e).refreshRequests ==> k in s.refreshRequests
  {
    hide Step, FinishStep, CompleteStep, ClearStep, ConfigureStep, Accepts;
    if e.act.Finish? {
      StepIs(s, e);
      FinishQueuesNothing(s, e.at, e.act.task, e.act.expired, k);
    } else if e.act.Complete? {
      StepIs(s, e);
      SuccessQueuesNothing(s, e, k);
    } else if e.act.Clear? {
      StepIs(s, e);
      ClearQueuesNothing(s, e.at, e.act.scope, e.act.sel, k);
    } else if Reconfigures(e) {
      StepIs(s, e);
      ConfiguredParts(s, e.act.raw, e.act.file);
    } else {
      StepFootprint(s, e);
    }
  }

  lemma FinishQueuesNothing(s: State, now: Time, t: nat, expired: bool, k: Key)
    ensures k in FinishStep(s, now, t, expired).refreshRequests ==> k in s.refreshRequests
  {
    FinishIs(s, now, t, expired);
    hide OwnFinish, FinishStep, Ends, Promotes, Backoff;
    if Ends(s, t, expired) && s.tasks[t].generation == s.generation {
      FinishedParts(s, now, t);
    }
  }

  lemma SuccessQueuesNothing(s: State, e: Event, k: Key)
    requires e.act.Complete? && e.act.outcome != Failed
    ensures k in CompleteStep(s, e.at, e.act.id, e.act.outcome, e.act.code, e.act.error).refreshRequests ==>
              k in s.refreshRequests
  {
    hide CompletionPromotes, FailureReason;
  }

  lemma ClearQueuesNothing(s: State, now: Time, scope: Scope, sel: Selector, k: Key)
    ensures k in ClearStep(s, now, scope, sel).refreshRequests ==> k in s.refreshRequests
  {
    hide Removed, Forgotten;
  }

  lemma StepQueues(s: State, e: Event, k: Key)
    requires e.act.Detach? || e.act.Observe? || e.act.Refresh? || (e.act.Complete? && e.act.outcome == Failed)
    ensures BecomesPending(s, Step(s, e), e, k)
  {
    hide *;
    StepIs(s, e);
    if e.act.Detach? {
      DetachQueues(s, e, k);
    } else if e.act.Observe? {
      ObserveQueues(s, e, k);
    } else if e.act.Refresh? {
      RefreshQueues(s, e, k);
    } else {
      CompleteQueues(s, e, k);
    }
  }

  /** In every run a key becomes pending exactly by a failure of a request bound to it, if such failures are to be
      answered with a refresh, or by a manual refresh that picks it; and it gets the reason of that event. */
  lemma PendingIffSignalled(es: seq<Event>, n: nat, k: Key)
    requires n < |es| && k !in At(es, n).refreshRequests
    ensures k in At(es, n + 1).refreshRequests <==>
              || (Fails(At(es, n), es[n], k) && WantsRefresh(At(es, n), k))
              || (es[n].act.Refresh? && Picks(At(es, n), es[n].at, es[n].act.sel, k))
    ensures k in At(es, n + 1).refreshRequests ==> GivenReason(es[n], At(es, n + 1).refreshRequests[k])
  {
    hide At, Step, WantsRefresh, Picks, Tells, ChunkFails, GivenReason;
    AtNext(es, n);
    var e := es[n];
    if e.act.Detach? || e.act.Observe? || e.act.Refresh? || (e.act.Complete? && e.act.outcome == Failed) {
      StepQueues(At(es, n), e, k);
    } else {
      OthersQueueNothing(At(es, n), e, k);
    }
  }

  /** A failure of a request is never lost: in every run the refresh that it calls for is pending after it, and stays
      so until a strictly newer state comes in, or a clear or a configuration ends it. */
  lemma FailureStaysPending(es: seq<Event>, i: nat, n: nat, k: Key)
    requires i < n <= |es| && Fails(At(es, i), es[i], k) && WantsRefresh(At(es, i), k)
    requires forall j :: i < j < n ==> !Freshness.Settles(At(es, j), es[j], k)
    ensures k in At(es, n).refreshRequests
  {
    hide At, Step, WantsRefresh, Freshness.Settles;
    AtNext(es, i);
    FailsAre(At(es, i), es[i], k);
    StepQueues(At(es, i), es[i], k);
    Freshness.PendingNeverLost(es, i + 1, n, k);
  }

  lemma FailsAre(s: State, e: Event, k: Key)
    requires Fails(s, e, k)
    ensures e.act.Detach? || e.act.Observe? || (e.act.Complete? && e.act.outcome == Failed)
  {
    hide ChunkFails, Tells;
  }
}
