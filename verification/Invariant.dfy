/** What holds in every reachable state of the machine. */
module Invariant {
  import opened Text
  import opened Wrappers
  import opened Policy
  import opened Machine
  import Fernet
  import Sse
  import Frames

  /** The recorded time and size are those of the token itself. */
  predicate Genuine(st: Stored) {
    var parsed := Fernet.Parse(st.value, MAX_STATE_BYTES);
    parsed.Ok? && st.issuedAt == Seconds(parsed.info.issuedAt) && st.blocks == parsed.info.blocks
  }

  predicate Allowed(cfg: Config, k: Key, st: Stored) {
    var policy := CredentialFor(cfg, k.account);
    Genuine(st) && policy.Some? && NormalBlocks(policy.value, st.blocks)
  }

  predicate AllAllowed(cfg: Config, states: map<Key, Stored>) {
    forall k | k in states :: Allowed(cfg, k, states[k])
  }

  predicate ConfigOk(cfg: Config) {
    cfg.maxStateBytes <= MAX_STATE_BYTES && (cfg.probe.enabled ==> ProbeOk(cfg.probe))
  }

  predicate BindingOk(b: Binding) {
    b.account == b.key.account && b.account != "" && b.key.model != "" && |b.buffer| <= Sse.CARRY_LIMIT
  }

  /** A staged state belongs to the live binding of its request. */
  predicate StagedOk(cfg: Config, requests: map<string, Binding>, id: string, c: Candidate) {
    && id in requests && requests[id].key == c.key && requests[id].account == c.account
    && Allowed(cfg, c.key, c.state)
  }

  predicate RequestsOk(cfg: Config, requests: map<string, Binding>, candidates: map<string, Candidate>) {
    && (forall id | id in requests :: BindingOk(requests[id]))
    && (forall id | id in candidates :: StagedOk(cfg, requests, id, candidates[id]))
  }

  predicate CountersOk(task: Task) {
    && task.attempts <= task.offset <= |task.config.probe.pool| && task.attempts <= task.config.probe.maxAttempts
    && (task.phase == Resolving ==> task.attempts == 0)
  }

  /** A kept state is genuine and fits the policy the probe started with. */
  predicate CandidateOk(task: Task) {
    task.candidate.Some? ==>
      && task.outcome == Accepted && (task.phase == Leaving || Concluded(task.phase))
      && Genuine(task.candidate.value) && NormalBlocks(task.policy, task.candidate.value.blocks)
  }

  predicate TaskOk(cfg: Config, generation: nat, task: Task) {
    && ConfigOk(task.config) && task.config.probe.enabled && CountersOk(task) && CandidateOk(task)
    && task.generation <= generation
    && (task.generation == generation ==>
          task.config == cfg && CredentialFor(cfg, task.key.account) == Some(task.policy))
  }

  predicate TasksOk(cfg: Config, generation: nat, cursor: nat, tasks: map<nat, Task>) {
    forall t | t in tasks :: t < cursor && TaskOk(cfg, generation, tasks[t])
  }

  /** In flight: of the present generation and not yet past its last section. */
  predicate InFlight(generation: nat, task: Task) {
    task.generation == generation && !Concluded(task.phase)
  }

  /** Single flight with a cap. */
  predicate FlightsOk(generation: nat, probing: set<Key>, tasks: map<nat, Task>) {
    && |probing| <= MAX_PROBES
    && (forall t | t in tasks && InFlight(generation, tasks[t]) :: tasks[t].key in probing)
    && (forall t, u | t in tasks && u in tasks && t != u
                      && InFlight(generation, tasks[t]) && InFlight(generation, tasks[u]) ::
          tasks[t].key != tasks[u].key)
  }

  predicate Inv(s: State) {
    && ConfigOk(s.config) && AllAllowed(s.config, s.current)
    && RequestsOk(s.config, s.requests, s.candidates)
    && TasksOk(s.config, s.generation, s.poolCursor, s.tasks)
    && FlightsOk(s.generation, s.probing, s.tasks)
    && |s.history| <= HISTORY_LIMIT
  }

  // ----- probes -----

  /** A probe goes on with its snapshot unchanged. */
  predicate GoesOn(before: Task, after: Task) {
    && after.key == before.key && after.config == before.config && after.policy == before.policy
    && after.generation == before.generation && after.cursor == before.cursor
    && after.startedAt == before.startedAt && after.reason == before.reason
    && before.offset <= after.offset && (Concluded(before.phase) ==> Concluded(after.phase))
  }

  lemma TaskGoesOn(cfg: Config, generation: nat, cursor: nat, probing: set<Key>, tasks: map<nat, Task>, t: nat,
                   after: Task)
    requires TasksOk(cfg, generation, cursor, tasks) && FlightsOk(generation, probing, tasks)
    requires t in tasks && GoesOn(tasks[t], after) && CountersOk(after) && CandidateOk(after)
    ensures TasksOk(cfg, generation, cursor, tasks[t := after]) && FlightsOk(generation, probing, tasks[t := after])
  {
    hide ConfigOk, CountersOk, CandidateOk, CredentialFor;
  }

  lemma TaskEnds(cfg: Config, generation: nat, cursor: nat, probing: set<Key>, tasks: map<nat, Task>, t: nat)
    requires TasksOk(cfg, generation, cursor, tasks) && FlightsOk(generation, probing, tasks)
    ensures TasksOk(cfg, generation, cursor, Drop(tasks, t)) && FlightsOk(generation, probing, Drop(tasks, t))
  {
    hide TaskOk;
  }

  /** The slot of an ended probe is free again. */
  lemma SlotFreed(generation: nat, probing: set<Key>, tasks: map<nat, Task>, t: nat)
    requires FlightsOk(generation, probing, tasks)
    requires t in tasks && InFlight(generation, tasks[t])
    ensures FlightsOk(generation, probing - {tasks[t].key}, Drop(tasks, t))
  {
  }

  lemma TaskStarts(cfg: Config, generation: nat, cursor: nat, probing: set<Key>, tasks: map<nat, Task>, task: Task)
    requires TasksOk(cfg, generation, cursor, tasks) && FlightsOk(generation, probing, tasks)
    requires TaskOk(cfg, generation, task) && task.key !in probing && |probing| < MAX_PROBES
    ensures TasksOk(cfg, generation, cursor + 1, tasks[cursor := task])
    ensures FlightsOk(generation, probing + {task.key}, tasks[cursor := task])
  {
    hide TaskOk;
  }

  lemma NewTaskOk(s: State, now: Time, k: Key)
    requires ConfigOk(s.config) && MayStart(s, now, k)
    ensures TaskOk(s.config, s.generation, NewTask(s, now, k)) && NewTask(s, now, k).key == k
  {
    var task := NewTask(s, now, k);
    assert task.config == s.config && task.generation == s.generation && task.key == k;
    assert CountersOk(task);
    assert CandidateOk(task);
    hide ConfigOk, Matches, Due, StartReason, Genuine;
  }

  lemma BeginKeeps(s: State, now: Time, k: Key)
    requires Inv(s)
    ensures Inv(BeginStep(s, now, k))
  {
    hide ConfigOk, AllAllowed, RequestsOk, TasksOk, FlightsOk, TaskOk, StartReason, NewTask, Due, Matches;
    if MayStart(s, now, k) {
      NewTaskOk(s, now, k);
      TaskStarts(s.config, s.generation, s.poolCursor, s.probing, s.tasks, NewTask(s, now, k));
    }
  }

  lemma TaskAt(s: State, t: nat)
    requires Inv(s) && t in s.tasks
    ensures t < s.poolCursor && TaskOk(s.config, s.generation, s.tasks[t])
  {
    hide ConfigOk, AllAllowed, RequestsOk, TaskOk, FlightsOk;
  }

  /** The parts of the state that the probes' own bookkeeping leaves alone. */
  predicate SameCore(s: State, s': State) {
    && s'.config == s.config && s'.current == s.current && s'.requests == s.requests && s'.candidates == s.candidates
    && s'.generation == s.generation && s'.poolCursor == s.poolCursor && s'.probing == s.probing
    && s'.history == s.history
  }

  lemma TaskStepKeeps(s: State, s': State, t: nat, after: Task)
    requires Inv(s) && t in s.tasks && GoesOn(s.tasks[t], after) && CountersOk(after) && CandidateOk(after)
    requires SameCore(s, s') && s'.tasks == s.tasks[t := after]
    ensures Inv(s')
  {
    hide ConfigOk, AllAllowed, RequestsOk, TasksOk, FlightsOk, CountersOk, CandidateOk, GoesOn;
    TaskGoesOn(s.config, s.generation, s.poolCursor, s.probing, s.tasks, t, after);
  }

  lemma TaskDropKeeps(s: State, s': State, t: nat)
    requires Inv(s) && SameCore(s, s') && s'.tasks == Drop(s.tasks, t)
    ensures Inv(s')
  {
    hide ConfigOk, AllAllowed, RequestsOk, TasksOk, FlightsOk;
    TaskEnds(s.config, s.generation, s.poolCursor, s.probing, s.tasks, t);
  }

  lemma ResolveKeeps(s: State, t: nat, found: bool)
    requires Inv(s)
    ensures Inv(ResolveStep(s, t, found))
  {
    hide Inv, ConfigOk;
    if t in s.tasks && s.tasks[t].phase == Resolving {
      TaskAt(s, t);
      TaskStepKeeps(s, ResolveStep(s, t, found), t, Resolved(s.tasks[t], found));
    }
  }

  lemma PickedOk(task: Task, cooling: bool)
    requires MayPick(task) && CountersOk(task) && CandidateOk(task)
    ensures GoesOn(task, Picked(task, cooling)) && CountersOk(Picked(task, cooling))
            && CandidateOk(Picked(task, cooling))
  {
    hide EndpointOf, Genuine, NormalBlocks;
  }

  lemma PickKeeps(s: State, now: Time, t: nat)
    requires Inv(s)
    ensures Inv(PickStep(s, now, t))
  {
    hide Inv, ConfigOk, CountersOk, CandidateOk, GoesOn, Picked, EndpointOf;
    if t in s.tasks && MayPick(s.tasks[t]) {
      TaskAt(s, t);
      var cooling := Waiting(s.proxyBlockedUntil, EndpointOf(s.tasks[t]), now);
      PickedOk(s.tasks[t], cooling);
      TaskStepKeeps(s, PickStep(s, now, t), t, Picked(s.tasks[t], cooling));
    }
  }

  lemma ProbeCandidateGenuine(task: Task, value: string)
    requires ConfigOk(task.config) && ProbeCandidate(task, value).Some?
    ensures Genuine(ProbeCandidate(task, value).value)
    ensures NormalBlocks(task.policy, ProbeCandidate(task, value).value.blocks)
  {
    Fernet.LargerLimitReadsTheSame(value, task.config.maxStateBytes, MAX_STATE_BYTES);
    hide Fernet.Parse, NormalBlocks;
  }

  lemma LandedOk(task: Task, value: string, verdict: Verdict)
    requires task.phase.Fetching? && ConfigOk(task.config) && CountersOk(task) && CandidateOk(task)
    ensures var after := Landed(task, value, verdict); GoesOn(task, after) && CountersOk(after) && CandidateOk(after)
  {
    hide Genuine, NormalBlocks, AccountFailure, ProbeCandidate, ConfigOk;
    if ProbeCandidate(task, value).Some? {
      ProbeCandidateGenuine(task, value);
    }
  }

  lemma LandKeeps(s: State, now: Time, t: nat, value: string, verdict: Verdict)
    requires Inv(s)
    ensures Inv(LandStep(s, now, t, value, verdict))
  {
    hide Inv, ConfigOk, CountersOk, CandidateOk, GoesOn, Landed, AccountCoolDown, ProxyCoolDown;
    if t in s.tasks && s.tasks[t].phase.Fetching? {
      TaskAt(s, t);
      LandedOk(s.tasks[t], value, verdict);
      TaskStepKeeps(s, LandStep(s, now, t, value, verdict), t, Landed(s.tasks[t], value, verdict));
    }
  }

  lemma OneMoreAllowed(cfg: Config, states: map<Key, Stored>, k: Key, st: Stored)
    requires AllAllowed(cfg, states) && Allowed(cfg, k, st)
    ensures AllAllowed(cfg, states[k := st])
  {
    hide Allowed;
  }

  /** A promoting probe leaves its slot and goes on to save. */
  lemma TaskSaves(cfg: Config, generation: nat, cursor: nat, probing: set<Key>, tasks: map<nat, Task>, t: nat,
                  path: string)
    requires TasksOk(cfg, generation, cursor, tasks) && FlightsOk(generation, probing, tasks)
    requires t in tasks && InFlight(generation, tasks[t]) && tasks[t].phase == Leaving
    ensures var saving := tasks[t := tasks[t].(phase := Saving(path))];
            TasksOk(cfg, generation, cursor, saving) && FlightsOk(generation, probing - {tasks[t].key}, saving)
  {
    hide ConfigOk, Genuine, NormalBlocks, CredentialFor;
  }

  lemma PromotedAllowed(s: State, t: nat)
    requires Inv(s) && t in s.tasks && s.tasks[t].generation == s.generation && s.tasks[t].candidate.Some?
    ensures Allowed(s.config, s.tasks[t].key, s.tasks[t].candidate.value)
    ensures s.tasks[t].phase == Leaving || Concluded(s.tasks[t].phase)
  {
    hide Inv, Genuine, NormalBlocks, ConfigOk, CountersOk;
    TaskAt(s, t);
  }

  lemma HistoryBounded(history: seq<HistoryEntry>, now: Time, task: Task, promoted: bool)
    requires |history| <= HISTORY_LIMIT
    ensures |EndHistory(history, now, task, promoted)| <= HISTORY_LIMIT
  {
  }

  lemma FinishedStates(s: State, now: Time, t: nat)
    requires Inv(s) && t in s.tasks && s.tasks[t].generation == s.generation
    ensures AllAllowed(s.config, OwnFinish(s, now, t).current)
  {
    hide Inv, AllAllowed, Backoff, EndHistory, Newer, Fresh, Allowed;
    assert AllAllowed(s.config, s.current) by { StatesAllowed(s); }
    if Promotes(s, now, s.tasks[t]) {
      PromotedAllowed(s, t);
      OneMoreAllowed(s.config, s.current, s.tasks[t].key, s.tasks[t].candidate.value);
    }
  }

  lemma StatesAllowed(s: State)
    requires Inv(s)
    ensures AllAllowed(s.config, s.current)
  {
    hide ConfigOk, AllAllowed, RequestsOk, TasksOk, FlightsOk;
  }

  lemma LeavesToSave(s: State, now: Time, t: nat)
    requires Inv(s) && t in s.tasks && s.tasks[t].generation == s.generation && Promotes(s, now, s.tasks[t])
    requires !Concluded(s.tasks[t].phase)
    ensures s.tasks[t].phase == Leaving
  {
    hide Inv, Allowed, Newer, Fresh;
    PromotedAllowed(s, t);
  }

  lemma FinishedTasks(s: State, now: Time, t: nat)
    requires Inv(s) && t in s.tasks && InFlight(s.generation, s.tasks[t])
    ensures var s' := OwnFinish(s, now, t);
            TasksOk(s.config, s.generation, s.poolCursor, s'.tasks) && FlightsOk(s.generation, s'.probing, s'.tasks)
  {
    Frames.FinishedParts(s, now, t);
    hide ConfigOk, AllAllowed, RequestsOk, TasksOk, FlightsOk, OwnFinish, Allowed;
    if Promotes(s, now, s.tasks[t]) && s.config.stateFile != "" {
      LeavesToSave(s, now, t);
      TaskSaves(s.config, s.generation, s.poolCursor, s.probing, s.tasks, t, s.config.stateFile);
    } else {
      SlotFreed(s.generation, s.probing, s.tasks, t);
      TaskEnds(s.config, s.generation, s.poolCursor, s.probing, s.tasks, t);
    }
  }

  lemma OwnFinishKeeps(s: State, now: Time, t: nat)
    requires Inv(s) && t in s.tasks && InFlight(s.generation, s.tasks[t])
    ensures Inv(OwnFinish(s, now, t))
  {
    FinishedStates(s, now, t);
    FinishedTasks(s, now, t);
    FinishedHistory(s, now, t);
    Frames.OwnFinishFrame(s, now, t);
    hide ConfigOk, AllAllowed, RequestsOk, TasksOk, FlightsOk, OwnFinish;
  }

  lemma FinishedHistory(s: State, now: Time, t: nat)
    requires t in s.tasks && |s.history| <= HISTORY_LIMIT
    ensures |OwnFinish(s, now, t).history| <= HISTORY_LIMIT
  {
    HistoryBounded(s.history, now, s.tasks[t], Promotes(s, now, s.tasks[t]));
    hide EndHistory, Promotes, Backoff;
  }

  lemma FencedFinishKeeps(s: State, now: Time, t: nat)
    requires Inv(s) && t in s.tasks && !Concluded(s.tasks[t].phase)
    ensures Inv(FencedFinish(s, now, t))
  {
    hide Inv, OwnFinish;
    if s.tasks[t].generation != s.generation {
      TaskDropKeeps(s, FencedFinish(s, now, t), t);
    } else {
      OwnFinishKeeps(s, now, t);
    }
  }

  lemma FinishKeeps(s: State, now: Time, t: nat, expired: bool)
    requires Inv(s)
    ensures Inv(FinishStep(s, now, t, expired))
  {
    hide Inv, FencedFinish;
    if Ends(s, t, expired) {
      FencedFinishKeeps(s, now, t);
    }
  }

  lemma ConcludedKeeps(before: Task, phase: Phase)
    requires CountersOk(before) && CandidateOk(before) && Concluded(before.phase) && Concluded(phase)
    ensures var after := before.(phase := phase); GoesOn(before, after) && CountersOk(after) && CandidateOk(after)
  {
    hide Genuine, NormalBlocks;
  }

  lemma PersistKeeps(s: State, t: nat)
    requires Inv(s)
    ensures Inv(PersistStep(s, t))
  {
    hide Inv, ConfigOk, CountersOk, CandidateOk, GoesOn, PersistStep;
    Frames.PersistParts(s, t);
    Frames.PersistFrame(s, t);
    if !Persists(s, t) {
      SameCoreKeeps(s, PersistStep(s, t));
    } else if s.tasks[t].phase.path == s.config.stateFile {
      TaskAt(s, t);
      ConcludedKeeps(s.tasks[t], Writing);
      TaskStepKeeps(s, PersistStep(s, t), t, s.tasks[t].(phase := Writing));
    } else {
      TaskDropKeeps(s, PersistStep(s, t), t);
    }
  }

  lemma NoteFailureKeeps(s: State, t: nat)
    requires Inv(s)
    ensures Inv(NoteFailureStep(s, t))
  {
    hide Inv;
    if t in s.tasks && s.tasks[t].phase == Unsaved {
      TaskDropKeeps(s, NoteFailureStep(s, t), t);
    }
  }

  // ----- requests -----

  /** A step that touches only the request hooks' maps and the cache. */
  lemma HookKeeps(s: State, s': State)
    requires Inv(s) && RequestsOk(s.config, s'.requests, s'.candidates) && AllAllowed(s.config, s'.current)
    requires s'.config == s.config && s'.generation == s.generation && s'.poolCursor == s.poolCursor
    requires s'.probing == s.probing && s'.history == s.history && s'.tasks == s.tasks
    ensures Inv(s')
  {
    hide ConfigOk, AllAllowed, RequestsOk, TasksOk, FlightsOk;
  }

  lemma RequestGone(cfg: Config, requests: map<string, Binding>, candidates: map<string, Candidate>, id: string)
    requires RequestsOk(cfg, requests, candidates)
    ensures RequestsOk(cfg, Drop(requests, id), Drop(candidates, id)) && RequestsOk(cfg, requests, Drop(candidates, id))
  {
    hide BindingOk, Allowed;
  }

  lemma DetachKeeps(s: State, id: string)
    requires Inv(s)
    ensures Inv(DetachStep(s, id))
  {
    hide RequestsOk, ConfigOk, AllAllowed, TasksOk, FlightsOk, Requeued;
    RequestGone(s.config, s.requests, s.candidates, id);
    HookKeeps(s, DetachStep(s, id));
  }

  lemma RequestBound(cfg: Config, requests: map<string, Binding>, candidates: map<string, Candidate>, id: string,
                     b: Binding)
    requires RequestsOk(cfg, requests, candidates) && BindingOk(b)
    ensures RequestsOk(cfg, requests[id := b], Drop(candidates, id))
    ensures id in requests && b.key == requests[id].key && b.account == requests[id].account ==>
            RequestsOk(cfg, requests[id := b], candidates)
  {
    hide BindingOk, Allowed;
  }

  lemma BindKeeps(s: State, id: string, account: string, model: string, requested: string)
    requires Inv(s)
    ensures Inv(BindStep(s, id, account, model, requested))
  {
    hide ConfigOk, AllAllowed, RequestsOk, TasksOk, FlightsOk, InjectionScope, AutoUpdate, Trim;
    if Binds(s, id, account, model, requested) {
      RequestBound(s.config, s.requests, s.candidates, id, Binding(account, KeyOf(account, model), ""));
      HookKeeps(s, BindStep(s, id, account, model, requested));
    }
  }

  lemma CapturedOk(s: State, now: Time, id: string, header: string)
    requires ConfigOk(s.config) && RequestsOk(s.config, s.requests, s.candidates) && Captured(s, now, id, header).Some?
    ensures StagedOk(s.config, s.requests, id, Captured(s, now, id, header).value)
  {
    hide Fernet.Parse, NormalBlocks, Trim, AutoUpdate;
    Fernet.LargerLimitReadsTheSame(Trim(header), s.config.maxStateBytes, MAX_STATE_BYTES);
    assert BindingOk(s.requests[id]);
  }

  lemma RequestStaged(cfg: Config, requests: map<string, Binding>, candidates: map<string, Candidate>, id: string,
                      c: Candidate)
    requires RequestsOk(cfg, requests, candidates) && StagedOk(cfg, requests, id, c)
    ensures RequestsOk(cfg, requests, candidates[id := c])
  {
    hide BindingOk, StagedOk;
  }

  lemma CaptureKeeps(s: State, now: Time, id: string, header: string)
    requires Inv(s)
    ensures Inv(CaptureStep(s, now, id, header))
  {
    hide ConfigOk, AllAllowed, RequestsOk, TasksOk, FlightsOk, Captured, StagedOk;
    if Captured(s, now, id, header).Some? {
      CapturedOk(s, now, id, header);
      RequestStaged(s.config, s.requests, s.candidates, id, Captured(s, now, id, header).value);
      HookKeeps(s, CaptureStep(s, now, id, header));
    }
  }

  lemma CarryKeepsBinding(b: Binding, json: Sse.Json, chunk: string)
    requires BindingOk(b)
    ensures BindingOk(b.(buffer := Sse.Feed(json, b.buffer, chunk).carry))
  {
    Sse.FeedBounded(json, b.buffer, chunk);
    hide Sse.Feed;
  }

  lemma ObserveKeeps(s: State, id: string, chunk: string, json: Sse.Json, classify: Classifier)
    requires Inv(s)
    ensures Inv(ObserveStep(s, id, chunk, json, classify))
  {
    hide ConfigOk, AllAllowed, TasksOk, FlightsOk, FailuresIn, RequeuedAll, Sse.Feed, BindingOk, StagedOk;
    if id in s.requests {
      var b := s.requests[id];
      assert BindingOk(b);
      CarryKeepsBinding(b, json, chunk);
      hide RequestsOk;
      RequestBound(s.config, s.requests, s.candidates, id, b.(buffer := Sse.Feed(json, b.buffer, chunk).carry));
      HookKeeps(s, ObserveStep(s, id, chunk, json, classify));
    }
  }

  lemma CompletedAllowed(s: State, id: string)
    requires Inv(s) && id in s.candidates
    ensures Allowed(s.config, s.candidates[id].key, s.candidates[id].state)
    ensures id in s.requests && s.requests[id].key == s.candidates[id].key
  {
    hide ConfigOk, AllAllowed, Allowed, TasksOk, FlightsOk, BindingOk;
    assert StagedOk(s.config, s.requests, id, s.candidates[id]);
  }

  lemma CompletedStates(s: State, now: Time, id: string, outcome: Completion, code: int, error: string)
    requires Inv(s)
    ensures AllAllowed(s.config, CompleteStep(s, now, id, outcome, code, error).current)
  {
    hide ConfigOk, AllAllowed, RequestsOk, TasksOk, FlightsOk, CompletionQueue, Newer, Fresh, Allowed;
    if CompletionPromotes(s, now, id, outcome) {
      CompletedAllowed(s, id);
      OneMoreAllowed(s.config, s.current, s.candidates[id].key, s.candidates[id].state);
    }
  }

  lemma CompleteKeeps(s: State, now: Time, id: string, outcome: Completion, code: int, error: string)
    requires Inv(s)
    ensures Inv(CompleteStep(s, now, id, outcome, code, error))
  {
    hide ConfigOk, AllAllowed, RequestsOk, TasksOk, FlightsOk, CompletionQueue, CompletionPromotes;
    RequestGone(s.config, s.requests, s.candidates, id);
    CompletedStates(s, now, id, outcome, code, error);
    HookKeeps(s, CompleteStep(s, now, id, outcome, code, error));
  }

  // ----- management and lifecycle -----

  lemma RefreshKeeps(s: State, now: Time, sel: Selector)
    requires Inv(s)
    ensures Inv(RefreshStep(s, now, sel))
  {
    hide ConfigOk, AllAllowed, RequestsOk, TasksOk, FlightsOk, Queued, Mark;
  }

  lemma ClearKeeps(s: State, now: Time, scope: Scope, sel: Selector)
    requires Inv(s)
    ensures Inv(ClearStep(s, now, scope, sel))
  {
    FewerAllowed(s.config, s.current, Removed(s, now, scope, sel));
    hide ConfigOk, AllAllowed, RequestsOk, TasksOk, FlightsOk, Removed, Forgotten;
  }

  lemma FewerAllowed(cfg: Config, states: map<Key, Stored>, gone: set<Key>)
    requires AllAllowed(cfg, states)
    ensures AllAllowed(cfg, states - gone)
  {
    hide Allowed;
  }

  lemma PreparedOk(raw: RawConfig)
    requires Prepare(raw).Some?
    ensures ConfigOk(Prepare(raw).value)
    ensures forall k :: HasSeed(Prepare(raw).value, k) ==> Allowed(Prepare(raw).value, k, SeedOf(Prepare(raw).value, k))
  {
    hide Fernet.Parse, NormalBlocks, Trim, NormalizeCredential;
    var cfg := Prepare(raw).value;
    assert NormalizeProbe(raw.probe).Some?;
    hide NormalizeProbe;
    forall k | HasSeed(cfg, k) ensures Allowed(cfg, k, SeedOf(cfg, k)) {
      var state := cfg.credentials[k.account].state;
      assert RawSeedOk(cfg.credentials[k.account], cfg.maxStateBytes);
      Fernet.LargerLimitReadsTheSame(state, cfg.maxStateBytes, MAX_STATE_BYTES);
      Fernet.TrimmedReadsTheSame(state, MAX_STATE_BYTES);
    }
  }

  lemma LoadedGenuine(file: map<Key, string>, maxBytes: int, k: Key)
    requires maxBytes <= MAX_STATE_BYTES && k in Load(file, maxBytes)
    ensures Genuine(Load(file, maxBytes)[k])
  {
    hide Fernet.Parse;
    Fernet.LargerLimitReadsTheSame(file[k], maxBytes, MAX_STATE_BYTES);
  }

  lemma MergeAllowed(cfg: Config, into: map<Key, Stored>, from: map<Key, Stored>)
    requires AllAllowed(cfg, into) && forall k :: k in from ==> Genuine(from[k])
    ensures AllAllowed(cfg, Merge(cfg, into, from))
  {
    hide Genuine, NormalBlocks, Matches, Newer;
  }

  lemma ConfiguredAllowed(raw: RawConfig, file: FileView, memory: map<Key, Stored>)
    requires Prepare(raw).Some? && forall k :: k in memory ==> Genuine(memory[k])
    ensures AllAllowed(Prepare(raw).value, Configured(Prepare(raw).value, file, memory))
  {
    var cfg := Prepare(raw).value;
    hide Prepare, Genuine, Load, Merge, Allowed;
    PreparedOk(raw);
    var loaded := if file.Entries? then Load(file.values, cfg.maxStateBytes) else map[];
    forall k | k in loaded ensures Genuine(loaded[k]) { LoadedGenuine(file.values, cfg.maxStateBytes, k); }
    assert AllAllowed(cfg, Seeds(cfg));
    MergeAllowed(cfg, Seeds(cfg), loaded);
    MergeAllowed(cfg, Merge(cfg, Seeds(cfg), loaded), memory);
  }

  /** A new generation: no old probe is in flight, and the old configuration binds none of them. */
  lemma OldTasks(cfg: Config, cfg': Config, generation: nat, cursor: nat, tasks: map<nat, Task>)
    requires TasksOk(cfg, generation, cursor, tasks)
    ensures TasksOk(cfg', generation + 1, cursor, tasks)
    ensures forall t :: t in tasks ==> !InFlight(generation + 1, tasks[t])
  {
    hide ConfigOk, CountersOk, CandidateOk, CredentialFor;
  }

  lemma FreshStart(s: State, s': State)
    requires Inv(s) && ConfigOk(s'.config) && AllAllowed(s'.config, s'.current)
    requires s'.requests == map[] && s'.candidates == map[] && s'.generation == s.generation + 1
    requires s'.poolCursor == s.poolCursor && s'.tasks == s.tasks && s'.history == s.history
             && |s'.probing| <= MAX_PROBES
    ensures Inv(s')
  {
    hide ConfigOk, AllAllowed, RequestsOk, TasksOk, InFlight;
    OldTasks(s.config, s'.config, s.generation, s.poolCursor, s.tasks);
    NoRequests(s'.config);
  }

  lemma ConfigureKeeps(s: State, raw: RawConfig, file: FileView)
    requires Inv(s)
    ensures Inv(ConfigureStep(s, raw, file))
  {
    hide ConfigOk, RequestsOk, TasksOk, FlightsOk, Prepare, Configured, Genuine, NormalBlocks;
    if Accepts(raw, file) {
      PreparedOk(raw);
      forall k | k in s.current ensures Genuine(s.current[k]) { assert Allowed(s.config, k, s.current[k]); }
      ConfiguredAllowed(raw, file, s.current);
      hide AllAllowed;
      FreshStart(s, ConfigureStep(s, raw, file));
    }
  }

  lemma NoRequests(cfg: Config)
    ensures RequestsOk(cfg, map[], map[])
  {
  }

  lemma QuiesceKeeps(s: State)
    requires Inv(s)
    ensures Inv(QuiesceStep(s))
  {
    hide ConfigOk, AllAllowed, RequestsOk, TasksOk, FlightsOk;
  }

  lemma ShutdownKeeps(s: State)
    requires Inv(s)
    ensures Inv(ShutdownStep(s))
  {
    hide ConfigOk, AllAllowed, RequestsOk, TasksOk, FlightsOk;
    assert |s.probing| <= MAX_PROBES by { ProbingCapped(s); }
    FreshStart(s, ShutdownStep(s));
  }

  lemma ProbingCapped(s: State)
    requires Inv(s)
    ensures |s.probing| <= MAX_PROBES
  {
    hide ConfigOk, AllAllowed, RequestsOk, TasksOk;
  }

  lemma SnapshotKeeps(s: State, path: string)
    requires Inv(s)
    ensures Inv(SnapshotStep(s, path))
  {
    hide ConfigOk, AllAllowed, RequestsOk, TasksOk, FlightsOk;
  }

  lemma WriteKeeps(s: State, ok: bool)
    requires Inv(s)
    ensures Inv(WriteStep(s, ok))
  {
    hide Inv, ConfigOk, CountersOk, CandidateOk, GoesOn;
    var s' := WriteStep(s, ok);
    if s'.tasks == s.tasks {
      SameCoreKeeps(s, s');
    } else {
      var t := s.writer.value.owner.value;
      if ok {
        TaskDropKeeps(s, s', t);
      } else {
        TaskAt(s, t);
        ConcludedKeeps(s.tasks[t], Unsaved);
        TaskStepKeeps(s, s', t, s.tasks[t].(phase := Unsaved));
      }
    }
  }

  lemma SameCoreKeeps(s: State, s': State)
    requires Inv(s) && SameCore(s, s') && s'.tasks == s.tasks
    ensures Inv(s')
  {
    hide ConfigOk, AllAllowed, RequestsOk, TasksOk, FlightsOk;
  }

  // ----- every run -----

  lemma StepKeeps(s: State, e: Event)
    requires Inv(s)
    ensures Inv(Step(s, e))
  {
    hide Inv, BeginStep, ResolveStep, PickStep, LandStep, FinishStep, PersistStep, NoteFailureStep, DetachStep,
      BindStep, CaptureStep, ObserveStep, CompleteStep, RefreshStep, ClearStep, ConfigureStep, QuiesceStep,
      ShutdownStep, SnapshotStep, WriteStep;
    match e.act
    case Begin(k) => BeginKeeps(s, e.at, k);
    case Resolve(t, found) => ResolveKeeps(s, t, found);
    case Pick(t) => PickKeeps(s, e.at, t);
    case Land(t, value, verdict) => LandKeeps(s, e.at, t, value, verdict);
    case Finish(t, expired) => FinishKeeps(s, e.at, t, expired);
    case Persist(t) => PersistKeeps(s, t);
    case NoteFailure(t) => NoteFailureKeeps(s, t);
    case Detach(id) => DetachKeeps(s, id);
    case Bind(id, account, model, requested) => BindKeeps(s, id, account, model, requested);
    case Capture(id, header) => CaptureKeeps(s, e.at, id, header);
    case Observe(id, chunk, json, classify) => ObserveKeeps(s, id, chunk, json, classify);
    case Complete(id, outcome, code, error) => CompleteKeeps(s, e.at, id, outcome, code, error);
    case Refresh(sel) => RefreshKeeps(s, e.at, sel);
    case Clear(scope, sel) => ClearKeeps(s, e.at, scope, sel);
    case Configure(raw, file) => ConfigureKeeps(s, raw, file);
    case Quiesce => QuiesceKeeps(s);
    case Shutdown => ShutdownKeeps(s);
    case Snapshot(path) => SnapshotKeeps(s, path);
    case Write(ok) => WriteKeeps(s, ok);
  }

  lemma InitInv()
    ensures Inv(INIT)
  {
  }

  lemma {:induction false} Reachable(es: seq<Event>, n: nat)
    requires n <= |es|
    ensures Inv(At(es, n))
  {
    hide Inv, Step;
    if n == 0 {
      InitInv();
    } else {
      Reachable(es, n - 1);
      StepKeeps(At(es, n - 1), es[n - 1]);
    }
  }

  /** In every reachable state each cached state is a readable token whose own time and size it carries, and its
      size fits the policy of the configuration in force at that moment, whatever configurations the
      probes and requests that brought it were started under. */
  lemma CacheInForce(es: seq<Event>, n: nat, k: Key)
    requires n <= |es| && k in At(es, n).current
    ensures var s, st := At(es, n), At(es, n).current[k];
            && st.value != "" && Fernet.Parse(st.value, MAX_STATE_BYTES).Ok?
            && st.issuedAt == Seconds(Fernet.Parse(st.value, MAX_STATE_BYTES).info.issuedAt)
            && st.blocks == Fernet.Parse(st.value, MAX_STATE_BYTES).info.blocks
            && CredentialFor(s.config, k.account).Some?
            && NormalBlocks(CredentialFor(s.config, k.account).value, st.blocks)
  {
    Reachable(es, n);
    hide At, ConfigOk, RequestsOk, TasksOk, FlightsOk, Fernet.Parse, NormalBlocks, Seconds, CredentialFor;
    assert Allowed(At(es, n).config, k, At(es, n).current[k]);
  }
}
