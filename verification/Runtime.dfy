/** `runtimeState` as the source has it: fields that its methods assign under the mutex. Every method is one
    mutex section and is proved to be the step of the machine with the same name. */
module Runtime {
  import opened Text
  import opened Wrappers
  import opened Policy
  import opened Machine
  import Fernet
  import Sse
  import Frames
  import Freshness

  lemma AdmittedHasPolicy(s: State, now: Time, k: Key)
    requires MayStart(s, now, k)
    ensures CredentialFor(s.config, k.account).Some?
  {
    hide Matches, Due;
  }

  lemma ReasonsNext(classify: Classifier, done: seq<string>, frame: string)
    ensures ReasonsIn(classify, PayloadsOf(done + [frame]))
         == ReasonsIn(classify, PayloadsOf(done)) + ReasonOf(classify, Sse.Payload(frame))
  {
    hide Sse.Payload, ReasonOf;
    PayloadsAppend(done, [frame]);
    assert [frame][1..] == [] && [Sse.Payload(frame)] + PayloadsOf([]) == [Sse.Payload(frame)];
    ReasonsAppend(classify, PayloadsOf(done), [Sse.Payload(frame)]);
    ReasonsOne(classify, Sse.Payload(frame));
  }

  lemma ReasonsOne(classify: Classifier, text: string)
    ensures ReasonsIn(classify, [text]) == ReasonOf(classify, text) && ReasonsIn(classify, []) == []
  {
    assert [text][1..] == [];
  }

  /** One frame moves from the buffer to the finished ones. */
  lemma FrameMoves(whole: string, done: seq<string>, buffer: string)
    requires Sse.Frames(whole) == Sse.Cut(done + Sse.Frames(buffer).frames, Sse.Frames(buffer).tail)
    ensures var end := Sse.Break(buffer);
            if end.None? then Sse.Frames(whole) == Sse.Cut(done, buffer)
            else var frame, rest := buffer[..end.value], buffer[end.value + 2..];
                 Sse.Frames(whole) == Sse.Cut(done + [frame] + Sse.Frames(rest).frames, Sse.Frames(rest).tail)
  {
    var end := Sse.Break(buffer);
    if end.None? {
      assert done + [] == done;
    } else {
      Sse.Assoc(done, [buffer[..end.value]], Sse.Frames(buffer[end.value + 2..]).frames);
    }
  }

  lemma CompleteParts(s: State, now: Time, id: string, outcome: Completion, code: int, error: string)
    ensures var s' := CompleteStep(s, now, id, outcome, code, error);
            var promotes := CompletionPromotes(s, now, id, outcome);
            var queue := CompletionQueue(s, id, outcome, code, error);
            && s'.forceInject == (if id in s.requests && outcome == Succeeded
                                  then s.forceInject - {s.requests[id].key} else s.forceInject)
            && s'.candidates == Drop(s.candidates, id) && s'.requests == Drop(s.requests, id)
            && s'.current == (if promotes then s.current[s.candidates[id].key := s.candidates[id].state] else s.current)
            && s'.refreshRequests == (if promotes then Drop(queue, s.candidates[id].key) else queue)
  {
    hide CompletionQueue, Newer, Fresh;
  }

  lemma NothingRefreshable(s: State, now: Time, sel: Selector)
    requires !s.accepting || !s.config.probe.enabled
    ensures Queued(s, now, sel) == {}
  {
    hide Matches, Names;
  }

  lemma QueuedOfNone(s: State, now: Time, sel: Selector)
    ensures QueuedOf(s, now, sel, {}) == {}
  {
  }

  lemma QueuedOfNext(s: State, now: Time, sel: Selector, keys: set<Key>, k: Key)
    ensures QueuedOf(s, now, sel, keys + {k})
         == QueuedOf(s, now, sel, keys) + if Refreshable(s, now, sel, k) then {k} else {}
  {
    hide Refreshable;
  }

  function TakenOf(cfg: Config, now: Time, scope: Scope, sel: Selector, states: map<Key, Stored>,
                   keys: set<Key>): set<Key> {
    set k | k in keys && k in states && Takes(cfg, now, scope, sel, k, states[k])
  }

  function IdleOf(current: map<Key, Stored>, sel: Selector, keys: set<Key>): set<Key> {
    set k | k in keys && k !in current && Selected(sel, k)
  }

  lemma TakenOfNone(cfg: Config, now: Time, scope: Scope, sel: Selector, states: map<Key, Stored>)
    ensures TakenOf(cfg, now, scope, sel, states, {}) == {}
  {
  }

  lemma TakenOfNext(cfg: Config, now: Time, scope: Scope, sel: Selector, states: map<Key, Stored>, keys: set<Key>,
                    k: Key)
    requires k in states
    ensures TakenOf(cfg, now, scope, sel, states, keys + {k})
         == TakenOf(cfg, now, scope, sel, states, keys) + if Takes(cfg, now, scope, sel, k, states[k]) then {k} else {}
  {
    hide Takes;
  }

  lemma RemovedIsTaken(s: State, now: Time, scope: Scope, sel: Selector)
    ensures Removed(s, now, scope, sel) == TakenOf(s.config, now, scope, sel, s.current, s.current.Keys)
  {
    hide Takes;
  }

  lemma IdleOfNone(current: map<Key, Stored>, sel: Selector)
    ensures IdleOf(current, sel, {}) == {}
  {
  }

  lemma IdleOfNext(current: map<Key, Stored>, sel: Selector, keys: set<Key>, k: Key)
    ensures IdleOf(current, sel, keys + {k})
         == IdleOf(current, sel, keys) + if k !in current && Selected(sel, k) then {k} else {}
  {
    hide Selected;
  }

  lemma ForgottenIsIdle(s: State, current: map<Key, Stored>, sel: Selector)
    ensures Forgotten(s, current, sel) == IdleOf(current, sel, s.probeResults.Keys)
  {
    hide Selected;
  }

  lemma LessOne<V>(m: map<Key, V>, gone: set<Key>, k: Key)
    ensures m - gone - {k} == m - (gone + {k}) && m - gone - {} == m - gone && gone + {} == gone
  {
  }

  lemma MarkNothing<K>(m: map<K, Reason>, reason: Reason)
    ensures Mark(m, {}, reason) == m
  {
  }

  lemma MarkOne<K>(m: map<K, Reason>, keys: set<K>, k: K, reason: Reason)
    ensures Mark(m, keys + {k}, reason) == Mark(m, keys, reason)[k := reason]
  {
  }

  lemma LandNothing(s: State, now: Time, t: nat, value: string, verdict: Verdict)
    requires t !in s.tasks || !s.tasks[t].phase.Fetching?
    ensures LandStep(s, now, t, value, verdict) == s
  {
  }

  lemma EndsIs(s: State, t: nat, expired: bool)
    ensures Ends(s, t, expired) <==> t in s.tasks && MayFinish(s.tasks[t], expired)
  {
  }

  lemma PromotesIs(s: State, now: Time, task: Task)
    ensures Promotes(s, now, task)
       <==> s.accepting && task.candidate.Some? && Newer(s.current, task.key, task.candidate.value)
            && Fresh(task.candidate.value, now)
  {
    hide Newer, Fresh;
  }

  class RuntimeState {
    var accepting: bool
    var config: Config
    var live: bool
    var generation: nat
    var current: map<Key, Stored>
    var requests: map<string, Binding>
    var candidates: map<string, Candidate>
    var probing: set<Key>
    var lastProbe: map<Key, Time>
    var probeResults: map<Key, Outcome>
    var probeReasons: map<Key, Reason>
    var refreshRequests: map<Key, Reason>
    var blockedUntil: map<Key, Time>
    var accountBlockedUntil: map<string, Time>
    var proxyBlockedUntil: map<nat, Time>
    var forceInject: set<Key>
    var history: seq<HistoryEntry>
    var poolCursor: nat
    /** The local variables of the probes at work. */
    var tasks: map<nat, Task>
    /** The holder of `persistMu`, and the file system. */
    var writer: Option<Writer>
    var disk: map<string, map<Key, Stored>>

    ghost function View(): State
      reads this
    {
      State(accepting, config, live, generation, current, requests, candidates, probing, lastProbe, probeResults,
            probeReasons, refreshRequests, blockedUntil, accountBlockedUntil, proxyBlockedUntil, forceInject, history,
            poolCursor, tasks, writer, disk)
    }

    lemma ViewIs()
      ensures View() == State(accepting, config, live, generation, current, requests, candidates, probing, lastProbe,
                              probeResults, probeReasons, refreshRequests, blockedUntil, accountBlockedUntil,
                              proxyBlockedUntil, forceInject, history, poolCursor, tasks, writer, disk)
    {
    }

    /** `newRuntimeState` */
    constructor ()
      ensures View() == INIT
    {
      accepting, config, live, generation := false, NO_CONFIG, false, 0;
      current, requests, candidates := map[], map[], map[];
      probing, lastProbe, probeResults, probeReasons := {}, map[], map[], map[];
      refreshRequests, blockedUntil, accountBlockedUntil, proxyBlockedUntil := map[], map[], map[], map[];
      forceInject, history, poolCursor := {}, [], 0;
      tasks, writer, disk := map[], None, map[];
    }

    /** `appendHistoryLocked` */
    method Append(entry: HistoryEntry)
      modifies this`history
      ensures history == AppendHistory(old(history), entry)
      ensures |old(history)| <= HISTORY_LIMIT ==> |history| <= HISTORY_LIMIT && history[|history| - 1] == entry
    {
      history := history + [entry];
      if |history| > HISTORY_LIMIT {
        history := history[|history| - HISTORY_LIMIT..];
      }
    }

    /** `queueRefreshLocked` */
    method QueueRefresh(k: Key, reason: Reason)
      modifies this`refreshRequests
      ensures refreshRequests == Requeued(old(View()), k, reason)
    {
      hide Matches, AutoUpdate, CredentialFor;
      if !accepting || !config.probe.enabled || !EnabledByDefault(config.probe.refreshOnErrors) {
        return;
      }
      var policy := CredentialFor(config, k.account);
      if policy.None? || !AutoUpdate(config, policy.value) || !Matches(policy.value.models, k.model) {
        return;
      }
      if k !in refreshRequests {
        refreshRequests := refreshRequests[k := reason];
      }
    }

    // ----- ensureProbe -----

    /** The early returns of the first section. */
    method Admits(now: Time, k: Key) returns (admitted: bool)
      ensures admitted <==> MayStart(View(), now, k)
    {
      hide Matches, AutoUpdate;
      var policy := CredentialFor(config, k.account);
      if !accepting || !config.probe.enabled || !live || policy.None? || policy.value.plan.Free?
         || !AutoUpdate(config, policy.value) || !Matches(policy.value.models, k.model) || k in probing
         || |probing| >= 4 {
        return false;
      }
      var pending := k in refreshRequests;
      if EnabledByDefault(config.probe.probeOnErrorsOnly) && !pending {
        return false;
      }
      if !pending && k in current && current[k].value != "" && current[k].issuedAt <= now + SKEW
         && now < current[k].issuedAt + (TTL - Seconds(config.probe.refreshBeforeSeconds)) {
        return false;
      }
      if k in blockedUntil && now < blockedUntil[k] {
        return false;
      }
      if k.account in accountBlockedUntil && now < accountBlockedUntil[k.account] {
        return false;
      }
      return !(k in lastProbe && now - lastProbe[k] < Seconds(config.probe.retrySeconds));
    }

    /** First section: a new probe, or no change at all. */
    method BeginFields(now: Time, k: Key) returns (started: bool)
      modifies this`lastProbe, this`probeReasons, this`probing, this`tasks, this`poolCursor
      ensures started <==> MayStart(old(View()), now, k)
      ensures var s' := BeginStep(old(View()), now, k);
              && lastProbe == s'.lastProbe && probeReasons == s'.probeReasons && probing == s'.probing
              && tasks == s'.tasks && poolCursor == s'.poolCursor
    {
      hide MayStart;
      started := Admits(now, k);
      if !started {
        return;
      }
      AdmittedHasPolicy(View(), now, k);
      var policy := CredentialFor(config, k.account).value;
      hide CredentialFor;
      var reason := if k in refreshRequests then refreshRequests[k]
                    else if k in current && current[k].value != "" then BeforeExpiry else MissingState;
      lastProbe := lastProbe[k := now];
      probeReasons := probeReasons[k := reason];
      probing := probing + {k};
      tasks := tasks[poolCursor := Task(k, reason, config, policy, generation, now, poolCursor, Resolving, 0, 0,
                                        AuthUnavailable, None)];
      poolCursor := poolCursor + 1;
    }

    /** The credential of the probe is there, or not. */
    method Resolve(t: nat, found: bool)
      modifies this`tasks
      ensures View() == ResolveStep(old(View()), t, found)
    {
      if t in tasks && tasks[t].phase == Resolving {
        if found {
          tasks := tasks[t := tasks[t].(phase := Looping, outcome := ProbeFailed)];
        } else {
          tasks := tasks[t := tasks[t].(phase := Leaving)];
        }
      }
    }

    /** Head of the attempt loop. */
    method Pick(now: Time, t: nat)
      modifies this`tasks
      ensures View() == PickStep(old(View()), now, t)
    {
      if t !in tasks || !MayPick(tasks[t]) {
        return;
      }
      var task := tasks[t];
      var endpoint := (task.cursor + task.offset) % |task.config.probe.pool|;
      if endpoint in proxyBlockedUntil && now < proxyBlockedUntil[endpoint] {
        tasks := tasks[t := task.(offset := task.offset + 1)];
      } else {
        tasks := tasks[t := task.(phase := Fetching(endpoint), offset := task.offset + 1,
                                  attempts := task.attempts + 1)];
      }
    }

    /** A fetch returns with another status than "ok". */
    method LandRefused(now: Time, t: nat, value: string, status: string)
      requires t in tasks && tasks[t].phase.Fetching?
      modifies this`tasks, this`accountBlockedUntil, this`proxyBlockedUntil
      ensures var s' := LandStep(old(View()), now, t, value, Refused(status));
              && tasks == s'.tasks && accountBlockedUntil == s'.accountBlockedUntil
              && proxyBlockedUntil == s'.proxyBlockedUntil
    {
      hide AccountFailure, ProxyFailure, AccountBackoff, Seconds, ProbeCandidate;
      var task := tasks[t];
      if AccountFailure(status) {
        accountBlockedUntil := accountBlockedUntil[task.key.account :=
          now + AccountBackoff(status, task.config.probe.quotaBackoffSeconds)];
        tasks := tasks[t := task.(phase := Leaving, outcome := Refusal(status))];
      } else {
        if ProxyFailure(status) {
          proxyBlockedUntil := proxyBlockedUntil[task.phase.endpoint := now + Seconds(task.config.probe.retrySeconds)];
        }
        tasks := tasks[t := task.(phase := Looping, outcome := Refusal(status))];
      }
    }

    /** A fetch returns with a value. */
    method LandDelivered(now: Time, t: nat, value: string)
      requires t in tasks && tasks[t].phase.Fetching?
      modifies this`tasks, this`proxyBlockedUntil
      ensures var s' := LandStep(old(View()), now, t, value, Delivered);
              && tasks == s'.tasks && accountBlockedUntil == s'.accountBlockedUntil
              && proxyBlockedUntil == s'.proxyBlockedUntil
    {
      hide Fernet.Parse, NormalBlocks, Seconds;
      var task := tasks[t];
      proxyBlockedUntil := proxyBlockedUntil - {task.phase.endpoint};
      var parsed := Fernet.Parse(value, task.config.maxStateBytes);
      if parsed.Bad? || !NormalBlocks(task.policy, parsed.info.blocks)
         || Seconds(parsed.info.issuedAt) > task.startedAt + SKEW
         || task.startedAt >= Seconds(parsed.info.issuedAt) + TTL {
        tasks := tasks[t := task.(phase := Looping, outcome := StateRejected)];
      } else {
        var candidate := Stored(value, Seconds(parsed.info.issuedAt), parsed.info.blocks);
        tasks := tasks[t := task.(phase := Leaving, outcome := Accepted, candidate := Some(candidate))];
      }
    }

    /** The slot, the outcome and the back-off of a probe that ends. */
    method Conclude(now: Time, task: Task)
      modifies this`probing, this`probeResults, this`blockedUntil
      ensures probing == old(probing) - {task.key} && probeResults == old(probeResults)[task.key := task.outcome]
      ensures blockedUntil == Backoff(old(blockedUntil), now, task)
    {
      hide QuotaStatus, Seconds;
      probing := probing - {task.key};
      probeResults := probeResults[task.key := task.outcome];
      if QuotaOutcome(task.outcome) {
        blockedUntil := blockedUntil[task.key := now + Seconds(task.config.probe.quotaBackoffSeconds)];
      }
    }

    /** The promotion, if the candidate is strictly newer and still valid. */
    method Promote(now: Time, task: Task) returns (promoted: bool)
      modifies this`current, this`refreshRequests, this`blockedUntil
      ensures promoted <==> accepting && task.candidate.Some? && Newer(old(current), task.key, task.candidate.value)
                            && Fresh(task.candidate.value, now)
      ensures promoted ==> && current == old(current)[task.key := task.candidate.value]
                           && refreshRequests == Drop(old(refreshRequests), task.key)
                           && blockedUntil == Drop(old(blockedUntil), task.key)
      ensures !promoted ==>
                current == old(current) && refreshRequests == old(refreshRequests) && blockedUntil == old(blockedUntil)
    {
      promoted := accepting && task.candidate.Some?
                  && (task.key in current ==> task.candidate.value.issuedAt > current[task.key].issuedAt)
                  && now < task.candidate.value.issuedAt + TTL;
      if promoted {
        current := current[task.key := task.candidate.value];
        refreshRequests := refreshRequests - {task.key};
        blockedUntil := blockedUntil - {task.key};
      }
    }

    /** The panel's history, and what a promotion lifts. */
    method Announce(now: Time, task: Task, promoted: bool)
      modifies this`history, this`accountBlockedUntil, this`forceInject
      ensures history == EndHistory(old(history), now, task, promoted)
      ensures promoted ==> accountBlockedUntil == Drop(old(accountBlockedUntil), task.key.account)
                           && forceInject == old(forceInject) + {task.key}
      ensures !promoted ==> accountBlockedUntil == old(accountBlockedUntil) && forceInject == old(forceInject)
    {
      hide AppendHistory;
      Append(Probed(now, task.key, task.outcome, task.reason));
      if promoted {
        accountBlockedUntil := accountBlockedUntil - {task.key.account};
        forceInject := forceInject + {task.key};
        Append(Promoted(now, task.key, task.reason));
      }
    }

    /** A promoting probe goes on to persist; every other one is over. */
    method Leave(t: nat, promoted: bool)
      requires t in tasks
      modifies this`tasks
      ensures tasks == if promoted && config.stateFile != ""
                       then old(tasks)[t := old(tasks)[t].(phase := Saving(config.stateFile))] else Drop(old(tasks), t)
    {
      tasks := if promoted && config.stateFile != "" then tasks[t := tasks[t].(phase := Saving(config.stateFile))]
               else tasks - {t};
    }

    /** Last section, past the generation fence. */
    method OwnFinish(now: Time, t: nat)
      requires t in tasks
      modifies this`probing, this`probeResults, this`blockedUntil, this`current, this`refreshRequests, this`history,
               this`accountBlockedUntil, this`forceInject, this`tasks
      ensures var s' := Machine.OwnFinish(old(View()), now, t);
              && probing == s'.probing && probeResults == s'.probeResults && blockedUntil == s'.blockedUntil
              && current == s'.current && refreshRequests == s'.refreshRequests && history == s'.history
              && accountBlockedUntil == s'.accountBlockedUntil && forceInject == s'.forceInject && tasks == s'.tasks
    {
      hide *;
      var task := tasks[t];
      ghost var s := View();
      ViewIs();
      Frames.FinishedParts(s, now, t);
      PromotesIs(s, now, task);
      Conclude(now, task);
      var promoted := Promote(now, task);
      Announce(now, task, promoted);
      Leave(t, promoted);
    }

    /** Last section. */
    method FinishFields(now: Time, t: nat, expired: bool)
      requires t in tasks && MayFinish(tasks[t], expired)
      modifies this`probing, this`probeResults, this`blockedUntil, this`current, this`refreshRequests, this`history,
               this`accountBlockedUntil, this`forceInject, this`tasks
      ensures var s' := FinishStep(old(View()), now, t, expired);
              && probing == s'.probing && probeResults == s'.probeResults && blockedUntil == s'.blockedUntil
              && current == s'.current && refreshRequests == s'.refreshRequests && history == s'.history
              && accountBlockedUntil == s'.accountBlockedUntil && forceInject == s'.forceInject && tasks == s'.tasks
    {
      Frames.FinishIs(View(), now, t, expired);
      hide FinishStep, Machine.OwnFinish, MayFinish;
      if tasks[t].generation != generation {
        tasks := tasks - {t};
        return;
      }
      OwnFinish(now, t);
    }

    // ----- request hooks -----

    /** First section of `interceptAfter`. */
    method DetachFields(id: string)
      modifies this`refreshRequests, this`requests, this`candidates
      ensures var s' := DetachStep(old(View()), id);
              refreshRequests == s'.refreshRequests && requests == s'.requests && candidates == s'.candidates
    {
      hide Queues;
      if id in requests {
        QueueRefresh(requests[id].key, CredentialRetry);
      }
      requests := requests - {id};
      candidates := candidates - {id};
    }

    /** Second section of `interceptAfter`. */
    method AttachFields(now: Time, id: string, account: string, model: string, requested: string)
      returns (answer: Injection)
      modifies this`requests, this`candidates
      ensures answer == InjectionOf(old(View()), now, account, model, requested)
      ensures var s' := BindStep(old(View()), id, account, model, requested);
              requests == s'.requests && candidates == s'.candidates
    {
      hide Matches, AutoUpdate, CredentialFor, Trim;
      if account == "" || Trim(model) == "" || !accepting {
        return Untouched;
      }
      var policy := CredentialFor(config, account);
      if policy.None? || policy.value.plan.Free?
         || !(Matches(policy.value.models, model) || Matches(policy.value.models, requested)) {
        return Untouched;
      }
      var k := KeyOf(account, model);
      answer := Answer(now, k);
      if id != "" && AutoUpdate(config, policy.value) {
        candidates := candidates - {id};
        requests := requests[id := Binding(account, k, "")];
      }
    }

    method Answer(now: Time, k: Key) returns (answer: Injection)
      ensures answer == if Injectable(View(), now, k) then Injected(current[k].value) else Cleared
    {
      if k !in current {
        return Cleared;
      }
      var held := current[k];
      if held.issuedAt > now + SKEW || (!config.injectExpired && now >= held.issuedAt + TTL) {
        return Cleared;
      }
      if EnabledByDefault(config.injectOnErrorsOnly) && k !in forceInject {
        return Cleared;
      }
      return Injected(held.value);
    }

    /** `captureCandidate` */
    method CaptureCandidate(now: Time, id: string, header: string)
      modifies this`candidates
      ensures View() == CaptureStep(old(View()), now, id, header)
    {
      hide Fernet.Parse, NormalBlocks, AutoUpdate, CredentialFor, Trim, Seconds;
      var value := Trim(header);
      if id == "" || value == "" || id !in requests || !accepting {
        return;
      }
      var binding := requests[id];
      var policy := CredentialFor(config, binding.account);
      if policy.None? || !AutoUpdate(config, policy.value) {
        return;
      }
      var parsed := Fernet.Parse(value, config.maxStateBytes);
      if parsed.Bad? || !NormalBlocks(policy.value, parsed.info.blocks) {
        return;
      }
      var st := Stored(value, Seconds(parsed.info.issuedAt), parsed.info.blocks);
      if st.issuedAt > now + SKEW || now >= st.issuedAt + TTL {
        return;
      }
      if binding.key in current && st.issuedAt <= current[binding.key].issuedAt {
        return;
      }
      candidates := candidates[id := Candidate(binding.account, binding.key, st)];
    }

    /** The failure report of a completion. */
    method ReportFailure(id: string, outcome: Completion, code: int, error: string)
      modifies this`refreshRequests
      ensures refreshRequests == CompletionQueue(old(View()), id, outcome, code, error)
    {
      hide FailureReason, Queues;
      if id in requests && outcome == Failed && FailureReason(code, error).Some? {
        QueueRefresh(requests[id].key, FailureReason(code, error).value);
      }
    }

    /** `complete` */
    method CompleteFields(now: Time, id: string, outcome: Completion, code: int, error: string)
      modifies this`refreshRequests, this`forceInject, this`candidates, this`requests, this`current
      ensures var s' := CompleteStep(old(View()), now, id, outcome, code, error);
              && refreshRequests == s'.refreshRequests && forceInject == s'.forceInject && candidates == s'.candidates
              && requests == s'.requests && current == s'.current
    {
      hide CompleteStep, CompletionQueue, Newer, Fresh;
      ghost var s := View();
      var candidate := if id in candidates then Some(candidates[id]) else None;
      ReportFailure(id, outcome, code, error);
      Release(id, outcome);
      if candidate.Some? && outcome == Succeeded {
        Commit(now, candidate.value.key, candidate.value.state);
      }
      CompleteParts(s, now, id, outcome, code, error);
    }

    /** The request is over. */
    method Release(id: string, outcome: Completion)
      modifies this`forceInject, this`candidates, this`requests
      ensures forceInject
           == if id in old(requests) && outcome == Succeeded then old(forceInject) - {old(requests)[id].key}
              else old(forceInject)
      ensures candidates == Drop(old(candidates), id) && requests == Drop(old(requests), id)
    {
      if id in requests && outcome == Succeeded {
        forceInject := forceInject - {requests[id].key};
      }
      candidates := candidates - {id};
      requests := requests - {id};
    }

    /** The promotion of a captured state. */
    method Commit(now: Time, k: Key, st: Stored)
      modifies this`refreshRequests, this`current
      ensures accepting && Fresh(st, now) && Newer(old(current), k, st) ==>
                current == old(current)[k := st] && refreshRequests == Drop(old(refreshRequests), k)
      ensures !(accepting && Fresh(st, now) && Newer(old(current), k, st)) ==>
                current == old(current) && refreshRequests == old(refreshRequests)
    {
      if accepting && now < st.issuedAt + TTL && (k !in current || st.issuedAt > current[k].issuedAt) {
        current := current[k := st];
        refreshRequests := refreshRequests - {k};
      }
    }

    /** The pending refreshes and the candidates after these failures of one chunk. */
    ghost predicate Reported(s: State, id: string, k: Key, reasons: seq<Reason>)
      reads this
    {
      && refreshRequests == RequeuedAll(s, k, reasons)
      && candidates == (if reasons == [] then s.candidates else Drop(s.candidates, id))
      && accepting == s.accepting && config == s.config
    }

    /** One classified text of a stream. */
    method Report(ghost s: State, id: string, k: Key, ghost reasons: seq<Reason>, classify: Classifier, text: string)
      requires Reported(s, id, k, reasons)
      modifies this`refreshRequests, this`candidates
      ensures Reported(s, id, k, reasons + ReasonOf(classify, text))
    {
      var reason := classify(text);
      if reason.Some? {
        QueueRefresh(k, reason.value);
        candidates := candidates - {id};
      } else {
        assert reasons + [] == reasons;
      }
    }

    /** The frames of a buffer, one after the other. */
    method ReportFrames(ghost s: State, id: string, k: Key, whole: string, classify: Classifier)
      returns (buffer: string)
      requires Reported(s, id, k, [])
      modifies this`refreshRequests, this`candidates
      ensures buffer == Sse.Frames(whole).tail
      ensures Reported(s, id, k, ReasonsIn(classify, PayloadsOf(Sse.Frames(whole).frames)))
    {
      hide Reported, ReasonOf, Sse.Payload, Sse.Frames, ReasonsIn;
      buffer := whole;
      ghost var done: seq<string> := [];
      ReasonsOne(classify, "");
      assert [] + Sse.Frames(whole).frames == Sse.Frames(whole).frames;
      while true
        invariant Sse.Frames(whole) == Sse.Cut(done + Sse.Frames(buffer).frames, Sse.Frames(buffer).tail)
        invariant Reported(s, id, k, ReasonsIn(classify, PayloadsOf(done)))
        decreases |buffer|
      {
        FrameMoves(whole, done, buffer);
        var end := Sse.Break(buffer);
        if end.None? {
          break;
        }
        var frame := buffer[..end.value];
        buffer := buffer[end.value + 2..];
        ReasonsNext(classify, done, frame);
        Report(s, id, k, ReasonsIn(classify, PayloadsOf(done)), classify, Sse.Payload(frame));
        done := done + [frame];
      }
      FrameMoves(whole, done, buffer);
    }

    /** `observeStreamFailure` */
    method ObserveStreamFailureFields(id: string, chunk: string, json: Sse.Json, classify: Classifier)
      modifies this`refreshRequests, this`candidates, this`requests
      ensures var s' := ObserveStep(old(View()), id, chunk, json, classify);
              refreshRequests == s'.refreshRequests && candidates == s'.candidates && requests == s'.requests
    {
      hide Sse.Frames, Sse.Normalize, Requeued, ReasonOf;
      if id !in requests {
        return;
      }
      var binding := requests[id];
      ghost var s := View();
      ReasonsOne(classify, "");
      if chunk == "" || |binding.buffer| + |chunk| > Sse.CARRY_LIMIT {
        requests := requests[id := binding.(buffer := if chunk == "" then binding.buffer else "")];
        return;
      }
      var whole := Sse.Normalize(binding.buffer + chunk);
      var buffer := ReportFrames(s, id, binding.key, whole, classify);
      if json.valid(buffer) {
        ReasonsOne(classify, buffer);
        Report(s, id, binding.key, ReasonsIn(classify, PayloadsOf(Sse.Frames(whole).frames)), classify, buffer);
        buffer := "";
      }
      requests := requests[id := binding.(buffer := buffer)];
    }

    // ----- management -----

    /** What a manual refresh reads, as it was in s. */
    ghost predicate Watches(s: State)
      reads this`accepting, this`config, this`current, this`probeResults, this`probing, this`blockedUntil,
            this`lastProbe
    {
      && accepting == s.accepting && config == s.config && current == s.current && probeResults == s.probeResults
      && probing == s.probing && blockedUntil == s.blockedUntil && lastProbe == s.lastProbe
    }

    /** Is the entry queued by a manual refresh, or skipped? */
    method Eligible(ghost s: State, now: Time, sel: Selector, k: Key) returns (queued: bool)
      requires Watches(s) && accepting && config.probe.enabled && (k in current || k in probeResults || k in probing)
      ensures queued <==> Refreshable(s, now, sel, k)
    {
      hide Matches, AutoUpdate, Names, Seconds;
      if k.account == "" || k.model == "" {
        return false;
      }
      var policy := CredentialFor(config, k.account);
      if policy.None? || !(sel.all || Names(sel, k)) {
        return false;
      }
      if k in probeResults && probeResults[k] == AuthUnavailable {
        return false;
      }
      if !AutoUpdate(config, policy.value) || !Matches(policy.value.models, k.model) || k in probing {
        return false;
      }
      if k in blockedUntil && blockedUntil[k] > now {
        return false;
      }
      return !(k in lastProbe && lastProbe[k] + Seconds(config.probe.retrySeconds) > now);
    }

    method QueueOne(ghost s: State, now: Time, sel: Selector, k: Key) returns (accepted: bool)
      requires Watches(s) && accepting && config.probe.enabled && (k in current || k in probeResults || k in probing)
      modifies this`refreshRequests, this`probeReasons
      ensures accepted <==> Refreshable(s, now, sel, k)
      ensures refreshRequests == (if accepted then old(refreshRequests)[k := Manual] else old(refreshRequests))
      ensures probeReasons == (if accepted then old(probeReasons)[k := Manual] else old(probeReasons))
    {
      hide Refreshable, Watches;
      accepted := Eligible(s, now, sel, k);
      if accepted {
        refreshRequests := refreshRequests[k := Manual];
        probeReasons := probeReasons[k := Manual];
      }
    }

    /** The loop of `refreshAction` over everything the panel knows. */
    method QueueAll(ghost s: State, now: Time, sel: Selector, all: set<Key>) returns (queued: set<Key>)
      requires Watches(s) && accepting && config.probe.enabled && all == current.Keys + probeResults.Keys + probing
      modifies this`refreshRequests, this`probeReasons
      ensures queued == QueuedOf(s, now, sel, all)
      ensures refreshRequests == Mark(old(refreshRequests), queued, Manual)
      ensures probeReasons == Mark(old(probeReasons), queued, Manual)
    {
      hide Refreshable, Mark, QueuedOf, Watches;
      queued := {};
      MarkNothing(refreshRequests, Manual);
      MarkNothing(probeReasons, Manual);
      var rest := all;
      ghost var seen: set<Key> := {};
      QueuedOfNone(s, now, sel);
      while rest != {}
        invariant seen + rest == all
        invariant queued == QueuedOf(s, now, sel, seen)
        invariant refreshRequests == Mark(old(refreshRequests), queued, Manual)
        invariant probeReasons == Mark(old(probeReasons), queued, Manual)
        decreases |rest|
      {
        var k :| k in rest;
        var accepted := QueueOne(s, now, sel, k);
        rest := rest - {k};
        QueuedOfNext(s, now, sel, seen, k);
        MarkOne(old(refreshRequests), queued, k, Manual);
        MarkOne(old(probeReasons), queued, k, Manual);
        seen := seen + {k};
        queued := if accepted then queued + {k} else queued;
      }
      assert seen == all;
    }

    /** `refreshAction` */
    method RefreshFields(now: Time, sel: Selector) returns (queued: set<Key>)
      modifies this`refreshRequests, this`probeReasons, this`history
      ensures queued == Queued(old(View()), now, sel)
      ensures var s' := RefreshStep(old(View()), now, sel);
              refreshRequests == s'.refreshRequests && probeReasons == s'.probeReasons && history == s'.history
    {
      hide QueuedOf, AppendHistory, Mark;
      if !accepting || !config.probe.enabled {
        NothingRefreshable(View(), now, sel);
        MarkNothing(refreshRequests, Manual);
        MarkNothing(probeReasons, Manual);
        return {};
      }
      queued := QueueAll(View(), now, sel, current.Keys + probeResults.Keys + probing);
      if queued != {} {
        Append(ManualRefresh(now));
      }
    }

    /** The cache and the pending refreshes are what they were, without some keys. */
    ghost predicate Without(states: map<Key, Stored>, pending: map<Key, Reason>, gone: set<Key>)
      reads this`current, this`refreshRequests
    {
      current == states - gone && refreshRequests == pending - gone
    }

    /** The first loop of `clearAction`: entries that the scope covers. */
    method RemoveEntries(now: Time, scope: Scope, sel: Selector) returns (gone: set<Key>)
      modifies this`current, this`refreshRequests
      ensures gone == TakenOf(config, now, scope, sel, old(current), old(current).Keys)
      ensures Without(old(current), old(refreshRequests), gone)
    {
      hide Takes, TakenOf, Without;
      gone := {};
      var rest := current.Keys;
      ghost var was, pending, seen := current, refreshRequests, {};
      TakenOfNone(config, now, scope, sel, was);
      assert Without(was, pending, {}) by { AllThere(); }
      while rest != {}
        invariant seen + rest == was.Keys && seen !! rest && gone <= seen
        invariant gone == TakenOf(config, now, scope, sel, was, seen)
        invariant Without(was, pending, gone)
        decreases |rest|
      {
        var k :| k in rest;
        var taken := Remove(now, scope, sel, k, was, pending, gone);
        TakenOfNext(config, now, scope, sel, was, seen, k);
        gone := gone + if taken then {k} else {};
        seen := seen + {k};
        rest := rest - {k};
      }
      assert seen == was.Keys;
    }

    lemma AllThere()
      ensures Without(current, refreshRequests, {})
    {
    }

    method Remove(now: Time, scope: Scope, sel: Selector, k: Key,
                  ghost was: map<Key, Stored>, ghost pending: map<Key, Reason>, ghost gone: set<Key>)
      returns (taken: bool)
      requires Without(was, pending, gone) && k in was && k !in gone
      modifies this`current, this`refreshRequests
      ensures taken <==> Takes(config, now, scope, sel, k, was[k])
      ensures Without(was, pending, gone + if taken then {k} else {})
    {
      hide Matches, NormalBlocks, Selected, CredentialFor;
      LessOne(was, gone, k);
      LessOne(pending, gone, k);
      if k.account == "" || k.model == "" || !Selected(sel, k) {
        return false;
      }
      var held, policy := current[k], CredentialFor(config, k.account);
      var expired := held.value == "" || now >= held.issuedAt + TTL;
      var valid := held.value != "" && held.issuedAt <= now + SKEW && now < held.issuedAt + TTL;
      var compatible := policy.Some? && Matches(policy.value.models, k.model)
          && NormalBlocks(policy.value, held.blocks);
      if (scope == Invalid && valid && compatible) || (scope == Expired && !expired) {
        return false;
      }
      current := current - {k};
      refreshRequests := refreshRequests - {k};
      return true;
    }

    /** The probe bookkeeping is what it was in s, without some keys. */
    ghost predicate Idle(s: State, pending: map<Key, Reason>, idle: set<Key>)
      reads this`probeResults, this`probeReasons, this`lastProbe, this`blockedUntil, this`refreshRequests
    {
      && probeResults == s.probeResults - idle && probeReasons == s.probeReasons - idle
      && lastProbe == s.lastProbe - idle && blockedUntil == s.blockedUntil - idle && refreshRequests == pending - idle
    }

    /** The second loop of `clearAction`: bookkeeping of keys that hold no state any more. */
    method ForgetIdle(ghost s: State, sel: Selector) returns (idle: set<Key>)
      requires Idle(s, refreshRequests, {})
      modifies this`probeResults, this`probeReasons, this`lastProbe, this`blockedUntil, this`refreshRequests
      ensures idle == IdleOf(current, sel, old(probeResults).Keys)
      ensures Idle(s, old(refreshRequests), idle)
    {
      hide Selected, IdleOf, Idle;
      idle := {};
      var rest := probeResults.Keys;
      ghost var all, seen, pending := rest, {}, refreshRequests;
      IdleOfNone(current, sel);
      while rest != {}
        invariant seen + rest == all
        invariant idle == IdleOf(current, sel, seen)
        invariant Idle(s, pending, idle)
        decreases |rest|
      {
        var k :| k in rest;
        IdleOfNext(current, sel, seen, k);
        idle := Forget(s, sel, pending, idle, k);
        seen := seen + {k};
        rest := rest - {k};
      }
      assert seen == all;
    }

    method Forget(ghost s: State, sel: Selector, ghost pending: map<Key, Reason>, idle: set<Key>, k: Key)
      returns (more: set<Key>)
      requires Idle(s, pending, idle)
      modifies this`probeResults, this`probeReasons, this`lastProbe, this`blockedUntil, this`refreshRequests
      ensures more == idle + if k !in current && Selected(sel, k) then {k} else {}
      ensures Idle(s, pending, more)
    {
      hide Selected;
      if k in current || !Selected(sel, k) {
        return idle;
      }
      LessOne(s.probeResults, idle, k);
      LessOne(s.probeReasons, idle, k);
      LessOne(s.lastProbe, idle, k);
      LessOne(s.blockedUntil, idle, k);
      LessOne(pending, idle, k);
      probeResults := probeResults - {k};
      probeReasons := probeReasons - {k};
      lastProbe := lastProbe - {k};
      blockedUntil := blockedUntil - {k};
      refreshRequests := refreshRequests - {k};
      return idle + {k};
    }

    /** `clearAction` */
    method ClearFields(now: Time, scope: Scope, sel: Selector) returns (gone: set<Key>)
      modifies this`current, this`refreshRequests, this`probeResults, this`probeReasons, this`lastProbe,
               this`blockedUntil, this`history
      ensures gone == Removed(old(View()), now, scope, sel)
      ensures var s' := ClearStep(old(View()), now, scope, sel);
              && current == s'.current && refreshRequests == s'.refreshRequests && probeResults == s'.probeResults
              && probeReasons == s'.probeReasons && lastProbe == s'.lastProbe && blockedUntil == s'.blockedUntil
              && history == s'.history
    {
      hide Removed, Forgotten, TakenOf, IdleOf, AppendHistory, ClearStep;
      ghost var s := View();
      RemovedIsTaken(s, now, scope, sel);
      gone := RemoveEntries(now, scope, sel);
      ForgottenIsIdle(s, current, sel);
      var idle := ForgetIdle(s, sel);
      if gone != {} {
        Append(ClearedBy(now, scope));
      }
      Frames.ClearParts(s, now, scope, sel);
    }

    // ----- lifecycle -----

    /** The probe bookkeeping of the old configuration goes. */
    method Reset()
      modifies this`probing, this`lastProbe, this`probeResults, this`probeReasons, this`refreshRequests,
               this`blockedUntil, this`accountBlockedUntil, this`proxyBlockedUntil, this`forceInject
      ensures probing == {} && lastProbe == map[] && probeResults == map[] && probeReasons == map[]
      ensures refreshRequests == map[] && blockedUntil == map[] && accountBlockedUntil == map[]
              && proxyBlockedUntil == map[]
      ensures forceInject == {}
    {
      probing, forceInject := {}, {};
      lastProbe, probeResults, refreshRequests, probeReasons := map[], map[], map[], map[];
      blockedUntil, accountBlockedUntil, proxyBlockedUntil := map[], map[], map[];
    }

    /** The new configuration and its cache are put in force. */
    method Install(cfg: Config, states: map<Key, Stored>)
      modifies this`accepting, this`config, this`live, this`generation, this`current, this`requests, this`candidates
      ensures config == cfg && current == states && requests == map[] && candidates == map[]
      ensures accepting == cfg.enabled && live && generation == old(generation) + 1
    {
      generation := generation + 1;
      live := true;
      config := cfg;
      current := states;
      requests, candidates := map[], map[];
      accepting := cfg.enabled;
    }

    /** `configure`: no change at all unless every check passes. */
    method ConfigureFields(raw: RawConfig, file: FileView) returns (ok: bool)
      modifies this`accepting, this`config, this`live, this`generation, this`current, this`requests, this`candidates,
               this`probing, this`lastProbe, this`probeResults, this`probeReasons, this`refreshRequests,
               this`blockedUntil, this`accountBlockedUntil, this`proxyBlockedUntil, this`forceInject
      ensures ok <==> Accepts(raw, file)
      ensures var s' := ConfigureStep(old(View()), raw, file);
              && accepting == s'.accepting && config == s'.config && live == s'.live && generation == s'.generation
              && current == s'.current && requests == s'.requests && candidates == s'.candidates
              && probing == s'.probing
              && lastProbe == s'.lastProbe && probeResults == s'.probeResults && probeReasons == s'.probeReasons
              && refreshRequests == s'.refreshRequests && blockedUntil == s'.blockedUntil
              && accountBlockedUntil == s'.accountBlockedUntil && proxyBlockedUntil == s'.proxyBlockedUntil
              && forceInject == s'.forceInject
    {
      hide Prepare, Configured, ConfigureStep, Accepts;
      ghost var s := View();
      var cfg;
      ok, cfg := CheckAll(raw, file);
      if !ok {
        Frames.RefusedFrame(s, raw, file);
        return;
      }
      var states := MergeSources(cfg.value, file, current);
      Reset();
      Install(cfg.value, states);
      Frames.ConfiguredParts(s, raw, file);
    }

    /** `setAccepting(false)` */
    method Quiesce()
      modifies this`accepting, this`live
      ensures View() == QuiesceStep(old(View()))
    {
      accepting := false;
      live := false;
    }

    /** `shutdown` */
    method ShutdownFields()
      modifies this`accepting, this`live, this`generation, this`requests, this`candidates
      ensures var s' := ShutdownStep(old(View()));
              && accepting == s'.accepting && live == s'.live && generation == s'.generation
              && requests == s'.requests && candidates == s'.candidates
    {
      accepting := false;
      live := false;
      generation := generation + 1;
      requests := map[];
      candidates := map[];
    }

    /** `shutdown` */
    method Shutdown()
      modifies this`accepting, this`live, this`generation, this`requests, this`candidates
      ensures View() == ShutdownStep(old(View()))
    {
      hide ShutdownStep;
      Frames.ShutdownFrame(View());
      ShutdownFields();
    }

    // ----- the state file -----

    /** `persistCurrent` of a promoting probe up to its snapshot; there is no generation check. */
    method Persist(t: nat)
      modifies this`writer, this`tasks
      ensures View() == PersistStep(old(View()), t)
    {
      hide PersistStep;
      Frames.PersistParts(View(), t);
      Frames.PersistFrame(View(), t);
      if writer.None? && t in tasks && tasks[t].phase.Saving? {
        if tasks[t].phase.path != config.stateFile {
          tasks := tasks - {t};
        } else {
          writer := Some(Writer(config.stateFile, current, Some(t)));
          tasks := tasks[t := tasks[t].(phase := Writing)];
        }
      }
    }

    /** The section after a failed persist. */
    method NoteFailure(t: nat)
      modifies this`tasks, this`probeResults
      ensures View() == NoteFailureStep(old(View()), t)
    {
      hide NoteFailureStep;
      Frames.NoteFailureFrame(View(), t);
      Frames.NoteFailureParts(View(), t);
      if t in tasks && tasks[t].phase == Unsaved {
        probeResults := probeResults[tasks[t].key := PersistFailed];
        tasks := tasks - {t};
      }
    }

    /** `persistCurrent` of a completion or a clear up to its snapshot. */
    method TakeSnapshot(path: string)
      modifies this`writer
      ensures View() == SnapshotStep(old(View()), path)
    {
      if writer.None? && path != "" && path == config.stateFile {
        writer := Some(Writer(path, current, None));
      }
    }

    /** `persistStates`, the release of the lock, and what becomes of the probe that wrote. */
    method Replace(ok: bool)
      modifies this`writer, this`disk, this`tasks
      ensures View() == WriteStep(old(View()), ok)
    {
      hide WriteStep, Written;
      Frames.WriteFrame(View(), ok);
      Frames.WriteParts(View(), ok);
      ReplaceFields(ok);
    }

    method ReplaceFields(ok: bool)
      modifies this`writer, this`disk, this`tasks
      ensures writer == None && tasks == Written(old(tasks), old(writer), ok)
      ensures disk == if old(writer).Some? && ok then old(disk)[old(writer).value.path := old(writer).value.snapshot]
                      else old(disk)
    {
      if writer.Some? {
        var Writer(path, snapshot, owner) := writer.value;
        if ok {
          disk := disk[path := snapshot];
        }
        writer := None;
        if owner.Some? && owner.value in tasks && tasks[owner.value].phase == Writing {
          tasks := if ok then tasks - {owner.value} else tasks[owner.value := tasks[owner.value].(phase := Unsaved)];
        }
      }
    }

    // ----- the other sections, as steps of the machine -----

    /** First section of `ensureProbe`. */
    method Begin(now: Time, k: Key) returns (started: bool)
      modifies this`lastProbe, this`probeReasons, this`probing, this`tasks, this`poolCursor
      ensures started <==> MayStart(old(View()), now, k)
      ensures View() == BeginStep(old(View()), now, k)
    {
      hide BeginStep, MayStart;
      Frames.BeginFrame(View(), now, k);
      started := BeginFields(now, k);
    }

    /** A fetch returns. */
    method Land(now: Time, t: nat, value: string, verdict: Verdict)
      modifies this`tasks, this`accountBlockedUntil, this`proxyBlockedUntil
      ensures View() == LandStep(old(View()), now, t, value, verdict)
    {
      hide LandStep;
      Frames.LandFrame(View(), now, t, value, verdict);
      if t in tasks && tasks[t].phase.Fetching? {
        match verdict
        case Refused(status) => LandRefused(now, t, value, status);
        case Delivered => LandDelivered(now, t, value);
      } else {
        LandNothing(View(), now, t, value, verdict);
      }
    }

    /** Last section of `ensureProbe`, once the loop is over. */
    method Finish(now: Time, t: nat, expired: bool)
      modifies this`probing, this`probeResults, this`blockedUntil, this`current, this`refreshRequests, this`history,
               this`accountBlockedUntil, this`forceInject, this`tasks
      ensures View() == FinishStep(old(View()), now, t, expired)
    {
      hide *;
      ViewIs();
      EndsIs(View(), t, expired);
      if t in tasks && MayFinish(tasks[t], expired) {
        Frames.FinishFrame(View(), now, t, expired);
        FinishFields(now, t, expired);
        ViewIs();
      } else {
        Frames.NothingEnds(View(), now, t, expired);
      }
    }

    /** First section of `interceptAfter`. */
    method Detach(id: string)
      modifies this`refreshRequests, this`requests, this`candidates
      ensures View() == DetachStep(old(View()), id)
    {
      hide DetachStep;
      Frames.DetachFrame(View(), id);
      DetachFields(id);
    }

    /** Second section of `interceptAfter`. */
    method Attach(now: Time, id: string, account: string, model: string, requested: string) returns (answer: Injection)
      modifies this`requests, this`candidates
      ensures answer == InjectionOf(old(View()), now, account, model, requested)
      ensures View() == BindStep(old(View()), id, account, model, requested)
    {
      hide BindStep, InjectionOf;
      Frames.BindFrame(View(), id, account, model, requested);
      answer := AttachFields(now, id, account, model, requested);
    }

    /** `observeStreamFailure` */
    method ObserveStreamFailure(id: string, chunk: string, json: Sse.Json, classify: Classifier)
      modifies this`refreshRequests, this`candidates, this`requests
      ensures View() == ObserveStep(old(View()), id, chunk, json, classify)
    {
      hide ObserveStep;
      Frames.ObserveFrame(View(), id, chunk, json, classify);
      ObserveStreamFailureFields(id, chunk, json, classify);
    }

    /** `complete` */
    method Complete(now: Time, id: string, outcome: Completion, code: int, error: string)
      modifies this`refreshRequests, this`forceInject, this`candidates, this`requests, this`current
      ensures View() == CompleteStep(old(View()), now, id, outcome, code, error)
    {
      hide CompleteStep;
      Frames.CompleteFrame(View(), now, id, outcome, code, error);
      CompleteFields(now, id, outcome, code, error);
    }

    /** `refreshAction` */
    method Refresh(now: Time, sel: Selector) returns (queued: set<Key>)
      modifies this`refreshRequests, this`probeReasons, this`history
      ensures queued == Queued(old(View()), now, sel)
      ensures View() == RefreshStep(old(View()), now, sel)
    {
      hide RefreshStep, Queued;
      Frames.RefreshFrame(View(), now, sel);
      queued := RefreshFields(now, sel);
    }

    /** `clearAction` */
    method Clear(now: Time, scope: Scope, sel: Selector) returns (gone: set<Key>)
      modifies this`current, this`refreshRequests, this`probeResults, this`probeReasons, this`lastProbe,
               this`blockedUntil, this`history
      ensures gone == Removed(old(View()), now, scope, sel)
      ensures View() == ClearStep(old(View()), now, scope, sel)
    {
      hide ClearStep, Removed;
      Frames.ClearFrame(View(), now, scope, sel);
      gone := ClearFields(now, scope, sel);
    }

    /** `configure` */
    method Configure(raw: RawConfig, file: FileView) returns (ok: bool)
      modifies this`accepting, this`config, this`live, this`generation, this`current, this`requests, this`candidates,
               this`probing, this`lastProbe, this`probeResults, this`probeReasons, this`refreshRequests,
               this`blockedUntil, this`accountBlockedUntil, this`proxyBlockedUntil, this`forceInject
      ensures ok <==> Accepts(raw, file)
      ensures View() == ConfigureStep(old(View()), raw, file)
    {
      hide ConfigureStep, Accepts;
      Frames.ConfigureFrame(View(), raw, file);
      ok := ConfigureFields(raw, file);
    }

    // ----- runs -----

    method PerformProbe(e: Event)
      requires Frames.OfProbe(e.act)
      modifies this
      ensures View() == Step(old(View()), e)
    {
      hide Step, View, BeginStep, ResolveStep, PickStep, LandStep, FinishStep, PersistStep, NoteFailureStep;
      Frames.StepIs(View(), e);
      match e.act
      case Begin(k) => var _ := Begin(e.at, k);
      case Resolve(t, found) => Resolve(t, found);
      case Pick(t) => Pick(e.at, t);
      case Land(t, value, verdict) => Land(e.at, t, value, verdict);
      case Finish(t, expired) => Finish(e.at, t, expired);
      case Persist(t) => Persist(t);
      case NoteFailure(t) => NoteFailure(t);
    }

    method PerformHook(e: Event)
      requires Frames.OfHook(e.act)
      modifies this
      ensures View() == Step(old(View()), e)
    {
      hide Step, View, DetachStep, BindStep, CaptureStep, ObserveStep, CompleteStep, InjectionOf;
      Frames.StepIs(View(), e);
      match e.act
      case Detach(id) => Detach(id);
      case Bind(id, account, model, requested) => var _ := Attach(e.at, id, account, model, requested);
      case Capture(id, header) => CaptureCandidate(e.at, id, header);
      case Observe(id, chunk, json, classify) => ObserveStreamFailure(id, chunk, json, classify);
      case Complete(id, outcome, code, error) => Complete(e.at, id, outcome, code, error);
    }

    method PerformOther(e: Event)
      requires !Frames.OfProbe(e.act) && !Frames.OfHook(e.act)
      modifies this
      ensures View() == Step(old(View()), e)
    {
      hide Step, View, RefreshStep, ClearStep, ConfigureStep, QuiesceStep, ShutdownStep, SnapshotStep, WriteStep,
        Accepts;
      Frames.StepIs(View(), e);
      match e.act
      case Refresh(sel) => var _ := Refresh(e.at, sel);
      case Clear(scope, sel) => var _ := Clear(e.at, scope, sel);
      case Configure(raw, file) => var _ := Configure(raw, file);
      case Quiesce => Quiesce();
      case Shutdown => Shutdown();
      case Snapshot(path) => TakeSnapshot(path);
      case Write(ok) => Replace(ok);
    }

    /** One event, whatever it is. */
    method Perform(e: Event)
      modifies this
      ensures View() == Step(old(View()), e)
    {
      hide Step, View;
      ghost var s := View();
      Frames.StepIs(s, e);
      if Frames.OfProbe(e.act) {
        PerformProbe(e);
      } else if Frames.OfHook(e.act) {
        PerformHook(e);
      } else {
        PerformOther(e);
      }
    }

    /** Any run: the object is in the state that the machine reaches. */
    method Run(es: seq<Event>)
      requires View() == INIT
      modifies this
      ensures View() == At(es, |es|)
    {
      hide Step, View;
      for i := 0 to |es|
        invariant View() == At(es, i)
      {
        Perform(es[i]);
        AtNext(es, i);
      }
    }
  }

  // ----- the checks of `configure` -----

  /** `canonicalModels` */
  method CollectModels(models: seq<string>) returns (r: set<string>)
    ensures r == CanonicalModels(models)
  {
    hide Trim, Lower;
    r := {};
    for i := 0 to |models|
      invariant r == CanonicalModels(models[..i])
    {
      assert models[..i + 1] == models[..i] + [models[i]];
      var model := Lower(Trim(models[i]));
      if model != "" {
        r := r + {model};
      }
      LowerKeepsLength(Trim(models[i]));
      ModelsNext(models[..i], models[i]);
    }
    assert models[..|models|] == models;
  }

  lemma LowerKeepsLength(s: string)
    ensures Lower(s) == "" <==> s == ""
  {
  }

  lemma ModelsNext(models: seq<string>, model: string)
    ensures CanonicalModels(models + [model])
         == CanonicalModels(models) + if Trim(model) != "" then {Lower(Trim(model))} else {}
  {
    hide Trim, Lower;
    var more := models + [model];
    assert model in more;
    forall m | m in models ensures m in more {}
  }

  /** `normalizeCredential` */
  method NormalizeOne(raw: RawCredential) returns (r: Option<Credential>)
    ensures r == NormalizeCredential(raw)
  {
    hide CanonicalModels, PlanOf, Trim;
    if raw.normalBlocks < 0 {
      return None;
    }
    var accepted := {};
    for i := 0 to |raw.acceptedBlocks|
      invariant forall j | 0 <= j < i :: 0 < raw.acceptedBlocks[j] <= 1024
      invariant accepted == set j | 0 <= j < i :: raw.acceptedBlocks[j]
    {
      if raw.acceptedBlocks[i] <= 0 || raw.acceptedBlocks[i] > 1024 {
        assert raw.acceptedBlocks[i] in raw.acceptedBlocks;
        return None;
      }
      accepted := accepted + {raw.acceptedBlocks[i]};
    }
    assert accepted == set blocks | blocks in raw.acceptedBlocks;
    var models := CollectModels(raw.models);
    return Some(Credential(PlanOf(raw.plan), raw.normalBlocks, accepted, raw.state, Trim(raw.stateModel), models,
                           raw.autoUpdate));
  }

  method ApplyDefaults(raw: Probe) returns (p: Probe)
    ensures p == WithDefaults(raw)
  {
    p := raw;
    if p.timeoutSeconds == 0 { p := p.(timeoutSeconds := 15); }
    if p.retrySeconds == 0 { p := p.(retrySeconds := 60); }
    if p.refreshBeforeSeconds == 0 { p := p.(refreshBeforeSeconds := 300); }
    if p.maxAttempts == 0 { p := p.(maxAttempts := 1); }
    if p.quotaBackoffSeconds == 0 { p := p.(quotaBackoffSeconds := 900); }
  }

  method AllEndpoints(entries: seq<Endpoint>) returns (ok: bool)
    ensures ok <==> forall entry | entry in entries :: EndpointOk(entry)
  {
    hide EndpointOk;
    for i := 0 to |entries|
      invariant forall j | 0 <= j < i :: EndpointOk(entries[j])
    {
      if !EndpointOk(entries[i]) {
        assert entries[i] in entries;
        return false;
      }
    }
    return true;
  }

  /** `normalizeProbe` */
  method NormalizeLimits(raw: Probe) returns (r: Option<Probe>)
    ensures r == NormalizeProbe(raw)
  {
    hide WithDefaults, EntriesOf;
    var p := ApplyDefaults(raw);
    if p.quotaBackoffSeconds < 60 || p.quotaBackoffSeconds > 86400 {
      return None;
    }
    if p.timeoutSeconds < 1 || p.timeoutSeconds > 180 || p.retrySeconds < 1 || p.refreshBeforeSeconds < 0
       || p.refreshBeforeSeconds >= 3600 || p.maxAttempts < 1 || p.maxAttempts > 20 {
      return None;
    }
    if !p.enabled {
      return Some(p);
    }
    if |p.pool| == 0 || |p.pool| > 100 {
      return None;
    }
    var ok := AllEndpoints(EntriesOf(p));
    return if ok then Some(p) else None;
  }

  /** The checks of `configure` on the decoded configuration, one credential after the other. */
  method Check(raw: RawConfig) returns (cfg: Option<Config>)
    ensures cfg == Prepare(raw)
  {
    hide NormalizeCredential, NormalizeProbe, RawSeedOk, Trim;
    var maxBytes := if raw.maxStateBytes == 0 then 4096 else raw.maxStateBytes;
    if maxBytes < 256 || maxBytes > MAX_STATE_BYTES {
      return None;
    }
    var probe := NormalizeLimits(raw.probe);
    if probe.None? {
      return None;
    }
    var defaults: Option<Credential> := None;
    if raw.defaults.Some? {
      defaults := NormalizeOne(raw.defaults.value);
      if defaults.None? || Trim(raw.defaults.value.state) != "" {
        return None;
      }
    }
    var credentials := CheckCredentials(raw, maxBytes);
    if credentials.None? {
      ghost var id :| id in raw.credentials && !CredentialPasses(raw, maxBytes, id);
      OneRefuses(raw, id);
      return None;
    }
    AllPass(raw, credentials.value);
    return Some(Config(raw.enabled, raw.autoUpdate, raw.injectExpired, raw.injectOnErrorsOnly, raw.stateFile, maxBytes,
                       defaults, credentials.value, probe.value));
  }

  /** All checks of `configure`, the reading of the state file included; without a path no file is opened. */
  method CheckAll(raw: RawConfig, file: FileView) returns (ok: bool, cfg: Option<Config>)
    ensures cfg == Prepare(raw)
    ensures ok <==> Accepts(raw, file)
    ensures ok ==> cfg.Some?
  {
    hide Prepare, Trim;
    cfg := Check(raw);
    ok := cfg.Some? && (Trim(raw.stateFile) == "" ==> file.Missing?) && !file.Corrupt?;
  }

  /** One bad credential refuses the whole configuration. */
  lemma OneRefuses(raw: RawConfig, id: string)
    requires id in raw.credentials && !CredentialPasses(raw, OrDefault(raw.maxStateBytes, 4096), id)
    ensures Prepare(raw).None?
  {
    hide NormalizeCredential, NormalizeProbe, RawSeedOk, Trim;
    if forall j | j in raw.credentials ::
         Trim(j) != "" && Trim(j) == j && NormalizeCredential(raw.credentials[j]).Some? {
      var credentials := map j | j in raw.credentials :: NormalizeCredential(raw.credentials[j]).value;
      assert id in credentials && !RawSeedOk(credentials[id], OrDefault(raw.maxStateBytes, 4096));
    }
  }

  lemma AllPass(raw: RawConfig, credentials: map<string, Credential>)
    requires credentials.Keys == raw.credentials.Keys
    requires forall id :: id in raw.credentials ==>
               CredentialPasses(raw, OrDefault(raw.maxStateBytes, 4096), id)
               && credentials[id] == NormalizeCredential(raw.credentials[id]).value
    ensures !exists id :: id in raw.credentials
              && (Trim(id) == "" || Trim(id) != id || NormalizeCredential(raw.credentials[id]).None?)
    ensures !exists id :: id in credentials && !RawSeedOk(credentials[id], OrDefault(raw.maxStateBytes, 4096))
    ensures credentials == map id | id in raw.credentials :: NormalizeCredential(raw.credentials[id]).value
  {
    hide NormalizeCredential, RawSeedOk, Trim;
  }

  predicate CredentialPasses(raw: RawConfig, maxBytes: int, id: string)
    requires id in raw.credentials
  {
    && Trim(id) != "" && Trim(id) == id && NormalizeCredential(raw.credentials[id]).Some?
    && RawSeedOk(NormalizeCredential(raw.credentials[id]).value, maxBytes)
  }

  /** The credential loop: all pass, or the whole configuration is refused. */
  method CheckCredentials(raw: RawConfig, maxBytes: int) returns (r: Option<map<string, Credential>>)
    ensures r.Some? <==> forall id | id in raw.credentials :: CredentialPasses(raw, maxBytes, id)
    ensures r.Some? ==>
              && r.value.Keys == raw.credentials.Keys
              && forall id | id in r.value :: r.value[id] == NormalizeCredential(raw.credentials[id]).value
  {
    hide NormalizeCredential, RawSeedOk, Trim;
    var credentials: map<string, Credential> := map[];
    var rest := raw.credentials.Keys;
    while rest != {}
      invariant rest <= raw.credentials.Keys && credentials.Keys == raw.credentials.Keys - rest
      invariant forall id | id in credentials ::
                  CredentialPasses(raw, maxBytes, id) && credentials[id]
                    == NormalizeCredential(raw.credentials[id]).value
      decreases |rest|
    {
      var id :| id in rest;
      rest := rest - {id};
      var credential := NormalizeOne(raw.credentials[id]);
      if Trim(id) == "" || Trim(id) != id || credential.None? || !RawSeedOk(credential.value, maxBytes) {
        assert !CredentialPasses(raw, maxBytes, id);
        return None;
      }
      credentials := credentials[id := credential.value];
    }
    return Some(credentials);
  }

  /** The seeds, then the file, then what memory holds. */
  method MergeSources(cfg: Config, file: FileView, memory: map<Key, Stored>) returns (merged: map<Key, Stored>)
    ensures merged == Configured(cfg, file, memory)
  {
    hide Load, Merge, Seeds;
    merged := CollectSeeds(cfg);
    if file.Entries? {
      merged := MergeInto(cfg, merged, Load(file.values, cfg.maxStateBytes));
    } else {
      MergeNothing(cfg, merged);
    }
    merged := MergeInto(cfg, merged, memory);
  }

  /** One merge loop of `configure`. */
  method MergeInto(cfg: Config, into: map<Key, Stored>, from: map<Key, Stored>) returns (merged: map<Key, Stored>)
    ensures merged == Merge(cfg, into, from)
  {
    hide InScope, MergeOf, Newer;
    merged := into;
    var rest := from.Keys;
    ghost var seen: set<Key> := {};
    MergeOfNone(cfg, into, from);
    while rest != {}
      invariant seen + rest == from.Keys && seen !! rest
      invariant merged == MergeOf(cfg, into, from, seen)
      decreases |rest|
    {
      var k :| k in rest;
      MergeOfNext(cfg, into, from, seen, k);
      if InScope(cfg, k, from[k]) && Newer(merged, k, from[k]) {
        merged := merged[k := from[k]];
      }
      seen := seen + {k};
      rest := rest - {k};
    }
    MergeOfAll(cfg, into, from, seen);
  }

  function MergeOf(cfg: Config, into: map<Key, Stored>, from: map<Key, Stored>, keys: set<Key>): map<Key, Stored> {
    into + (map k | k in from && k in keys && Joins(cfg, into, from, k) :: from[k])
  }

  lemma MergeNothing(cfg: Config, into: map<Key, Stored>)
    ensures Merge(cfg, into, map[]) == into
  {
  }

  lemma MergeOfNone(cfg: Config, into: map<Key, Stored>, from: map<Key, Stored>)
    ensures MergeOf(cfg, into, from, {}) == into
  {
  }

  lemma MergeOfAll(cfg: Config, into: map<Key, Stored>, from: map<Key, Stored>, keys: set<Key>)
    requires keys == from.Keys
    ensures MergeOf(cfg, into, from, keys) == Merge(cfg, into, from)
  {
    hide Joins;
  }

  lemma MergeOfNext(cfg: Config, into: map<Key, Stored>, from: map<Key, Stored>, keys: set<Key>, k: Key)
    requires k in from && k !in keys
    ensures var merged := MergeOf(cfg, into, from, keys);
            MergeOf(cfg, into, from, keys + {k})
            == if InScope(cfg, k, from[k]) && Newer(merged, k, from[k]) then merged[k := from[k]] else merged
  {
    hide InScope;
  }

  /** The seed loop of `configure`. */
  method CollectSeeds(cfg: Config) returns (seeds: map<Key, Stored>)
    ensures seeds == Seeds(cfg)
  {
    hide HasSeed, SeedOf, Seeds;
    seeds := map[];
    var rest := cfg.credentials.Keys;
    SeedHome(cfg);
    while rest != {}
      invariant rest <= cfg.credentials.Keys
      invariant forall k | k in seeds :: HasSeed(cfg, k) && seeds[k] == SeedOf(cfg, k)
      invariant forall k | HasSeed(cfg, k) :: k in seeds || k.account in rest
      decreases |rest|
    {
      var id :| id in rest;
      rest := rest - {id};
      var k := Key(id, cfg.credentials[id].stateModel);
      if HasSeed(cfg, k) {
        seeds := seeds[k := SeedOf(cfg, k)];
      }
    }
    SeedsAre(cfg, seeds);
  }

  lemma SeedHome(cfg: Config)
    ensures forall k :: HasSeed(cfg, k) ==>
              k.account in cfg.credentials && k.model == cfg.credentials[k.account].stateModel
  {
    hide Fernet.Parse, Trim;
  }

  lemma SeedsAre(cfg: Config, seeds: map<Key, Stored>)
    requires forall k :: k in seeds ==> HasSeed(cfg, k) && seeds[k] == SeedOf(cfg, k)
    requires forall k :: HasSeed(cfg, k) ==> k in seeds
    ensures seeds == Seeds(cfg)
  {
    hide HasSeed, SeedOf, Seeds;
    forall k ensures k in Seeds(cfg) <==> k in seeds
             ensures k in seeds ==> seeds[k] == Seeds(cfg)[k] {
      Freshness.SeedsAre(cfg, k);
    }
  }
}
