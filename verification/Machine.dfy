/** The runtime as a step machine: one step for every mutex section, plus the steps of the
    goroutines that run between two sections of one call. */
module Machine {
  import opened Text
  import opened Wrappers
  import opened Policy
  import Fernet
  import Sse

  const MAX_PROBES := 4
  const HISTORY_LIMIT := 50

  /** The account and the trimmed model that `stateKey` encodes. */
  datatype Key = Key(account: string, model: string)

  function KeyOf(account: string, model: string): Key {
    Key(account, Trim(model))
  }

  datatype Stored = Stored(value: string, issuedAt: Time, blocks: int)

  datatype Binding = Binding(account: string, key: Key, buffer: string)

  datatype Candidate = Candidate(account: string, key: Key, state: Stored)

  /** Where a probe is between its mutex sections. */
  datatype Phase =
    | Resolving                 // asking the host for the credential
    | Looping                   // at the head of the attempt loop
    | Fetching(endpoint: nat)   // inside one attempt
    | Leaving                   // out of the loop, before the last section
    | Saving(path: string)      // promoted, wants to write the state file
    | Writing                   // holds the persist lock
    | Unsaved                   // the write has failed

  /** Past the last section of a probe. */
  predicate Concluded(phase: Phase) {
    phase.Saving? || phase.Writing? || phase.Unsaved?
  }

  /** The `outcome` strings of a probe. */
  datatype Outcome = AuthUnavailable | ProbeFailed | Refusal(status: string) | StateRejected | Accepted | PersistFailed

  /** What a fetch returns besides the value: the status "ok", or another one. */
  datatype Verdict = Delivered | Refused(status: string)

  /** The local variables of one run of `ensureProbe`. */
  datatype Task = Task(key: Key, reason: Reason, config: Config, policy: Credential, generation: nat,
                       startedAt: Time, cursor: nat, phase: Phase, offset: nat, attempts: nat,
                       outcome: Outcome, candidate: Option<Stored>)

  datatype HistoryEntry =
    | Probed(at: Time, key: Key, outcome: Outcome, reason: Reason)
    | Promoted(at: Time, key: Key, reason: Reason)
    | ManualRefresh(at: Time)
    | ClearedBy(at: Time, scope: Scope)

  /** A writer that holds the persist lock and has taken its snapshot: a probe, or a completion or clear. */
  datatype Writer = Writer(path: string, snapshot: map<Key, Stored>, owner: Option<nat>)

  datatype State = State(
    accepting: bool,
    config: Config,
    live: bool, // the probe context exists and is not cancelled
    generation: nat,
    current: map<Key, Stored>,
    requests: map<string, Binding>,
    candidates: map<string, Candidate>,
    probing: set<Key>,
    lastProbe: map<Key, Time>,
    probeResults: map<Key, Outcome>,
    probeReasons: map<Key, Reason>,
    refreshRequests: map<Key, Reason>,
    blockedUntil: map<Key, Time>,
    accountBlockedUntil: map<string, Time>,
    proxyBlockedUntil: map<nat, Time>,
    forceInject: set<Key>,
    history: seq<HistoryEntry>,
    poolCursor: nat,
    tasks: map<nat, Task>,
    writer: Option<Writer>,
    disk: map<string, map<Key, Stored>>)

  /** A deadline that is set and not yet reached. */
  predicate Waiting<K>(deadlines: map<K, Time>, k: K, now: Time) {
    k in deadlines && now < deadlines[k]
  }

  /** Would `candidate` replace what `current` holds under k? */
  predicate Newer(current: map<Key, Stored>, k: Key, candidate: Stored) {
    k in current ==> candidate.issuedAt > current[k].issuedAt
  }

  predicate Fresh(st: Stored, now: Time) {
    now < st.issuedAt + TTL
  }

  // ----- shared pieces -----

  function AppendHistory(history: seq<HistoryEntry>, entry: HistoryEntry): seq<HistoryEntry> {
    var longer := history + [entry];
    if |longer| > HISTORY_LIMIT then longer[|longer| - HISTORY_LIMIT..] else longer
  }

  /** Does `queueRefreshLocked` take a reason for k? */
  predicate Queues(s: State, k: Key) {
    var policy := CredentialFor(s.config, k.account);
    && s.accepting && s.config.probe.enabled && EnabledByDefault(s.config.probe.refreshOnErrors)
    && policy.Some? && AutoUpdate(s.config, policy.value) && Matches(policy.value.models, k.model)
  }

  /** The pending refreshes after `queueRefreshLocked`: a key keeps its first reason. */
  function Requeued(s: State, k: Key, reason: Reason): map<Key, Reason> {
    if Queues(s, k) && k !in s.refreshRequests then s.refreshRequests[k := reason] else s.refreshRequests
  }

  function Drop<K, V>(m: map<K, V>, k: K): map<K, V> {
    m - {k}
  }

  // ----- ensureProbe -----

  /** `current[key].Value != ""` */
  predicate Holds(s: State, k: Key) {
    k in s.current && s.current[k].value != ""
  }

  /** The part of the gate that depends on the key and the clock. */
  predicate Due(s: State, now: Time, k: Key) {
    && (k !in s.refreshRequests ==> !EnabledByDefault(s.config.probe.probeOnErrorsOnly))
    && !(k !in s.refreshRequests && Holds(s, k) && s.current[k].issuedAt <= now + SKEW
         && now < s.current[k].issuedAt + (TTL - Seconds(s.config.probe.refreshBeforeSeconds)))
    && !Waiting(s.blockedUntil, k, now)
    && !(k in s.lastProbe && now - s.lastProbe[k] < Seconds(s.config.probe.retrySeconds))
  }

  predicate MayStart(s: State, now: Time, k: Key) {
    var policy := CredentialFor(s.config, k.account);
    && s.accepting && s.config.probe.enabled && s.live
    && policy.Some? && !policy.value.plan.Free? && AutoUpdate(s.config, policy.value)
    && Matches(policy.value.models, k.model)
    && k !in s.probing && |s.probing| < MAX_PROBES
    && Due(s, now, k) && !Waiting(s.accountBlockedUntil, k.account, now)
  }

  function StartReason(s: State, k: Key): Reason {
    if k in s.refreshRequests then s.refreshRequests[k]
    else if Holds(s, k) then BeforeExpiry else MissingState
  }

  /** The probe that a start takes off with: its snapshot of configuration, policy, generation and clock. */
  function NewTask(s: State, now: Time, k: Key): Task
    requires CredentialFor(s.config, k.account).Some?
  {
    Task(k, StartReason(s, k), s.config, CredentialFor(s.config, k.account).value, s.generation, now,
         s.poolCursor, Resolving, 0, 0, AuthUnavailable, None)
  }

  /** The pool cursor a start takes also names the new probe. */
  function Started(s: State, now: Time, k: Key): State
    requires CredentialFor(s.config, k.account).Some?
  {
    s.(lastProbe := s.lastProbe[k := now], probeReasons := s.probeReasons[k := StartReason(s, k)],
       probing := s.probing + {k}, poolCursor := s.poolCursor + 1, tasks := s.tasks[s.poolCursor := NewTask(s, now, k)])
  }

  /** First section. */
  function BeginStep(s: State, now: Time, k: Key): State {
    if !MayStart(s, now, k) then s else Started(s, now, k)
  }

  /** `selectedProbeAuth` returns. */
  function Resolved(task: Task, found: bool): Task {
    if found then task.(phase := Looping, outcome := ProbeFailed) else task.(phase := Leaving)
  }

  function ResolveStep(s: State, t: nat, found: bool): State {
    s.(tasks := if t in s.tasks && s.tasks[t].phase == Resolving then s.tasks[t := Resolved(s.tasks[t], found)]
                else s.tasks)
  }

  predicate MayPick(task: Task) {
    task.phase == Looping && task.offset < |task.config.probe.pool| && task.attempts < task.config.probe.maxAttempts
  }

  /** The entry of a pool of n that lies o places after the cursor. */
  function EntryAt(cursor: nat, n: nat, o: nat): nat
    requires n > 0
  {
    (cursor + o) % n
  }

  /** The pool entry of the next attempt. */
  function EndpointOf(task: Task): nat
    requires task.config.probe.pool != []
  {
    EntryAt(task.cursor, |task.config.probe.pool|, task.offset)
  }

  /** Head of the attempt loop: skip a cooling proxy or start an attempt through it. */
  function Picked(task: Task, cooling: bool): Task
    requires task.config.probe.pool != []
  {
    if cooling then task.(offset := task.offset + 1)
    else task.(phase := Fetching(EndpointOf(task)), offset := task.offset + 1, attempts := task.attempts + 1)
  }

  function PickStep(s: State, now: Time, t: nat): State {
    s.(tasks := if t in s.tasks && MayPick(s.tasks[t])
                then s.tasks[t := Picked(s.tasks[t], Waiting(s.proxyBlockedUntil, EndpointOf(s.tasks[t]), now))]
                else s.tasks)
  }

  /** The state a probe may keep, judged with the clock of its start. */
  function ProbeCandidate(task: Task, value: string): Option<Stored> {
    var parsed := Fernet.Parse(value, task.config.maxStateBytes);
    if parsed.Bad? then None
    else
      var st := Stored(value, Seconds(parsed.info.issuedAt), parsed.info.blocks);
      if !NormalBlocks(task.policy, st.blocks) || st.issuedAt > task.startedAt + SKEW
         || !Fresh(st, task.startedAt) then None
      else Some(st)
  }

  /** The fetch of an attempt returns: what it means for the loop. */
  function Landed(task: Task, value: string, verdict: Verdict): Task {
    match verdict
    case Refused(status) =>
      task.(phase := if AccountFailure(status) then Leaving else Looping, outcome := Refusal(status))
    case Delivered =>
      var kept := ProbeCandidate(task, value);
      if kept.None? then task.(phase := Looping, outcome := StateRejected)
      else task.(phase := Leaving, outcome := Accepted, candidate := kept)
  }

  /** The cool-downs that a fetch result sets, whatever the generation. */
  function AccountCoolDown(s: State, now: Time, task: Task, verdict: Verdict): map<string, Time> {
    if verdict.Refused? && AccountFailure(verdict.status) then
      s.accountBlockedUntil[task.key.account :=
        now + AccountBackoff(verdict.status, task.config.probe.quotaBackoffSeconds)]
    else s.accountBlockedUntil
  }

  function ProxyCoolDown(s: State, now: Time, task: Task, endpoint: nat, verdict: Verdict): map<nat, Time> {
    if verdict.Delivered? then Drop(s.proxyBlockedUntil, endpoint)
    else if !AccountFailure(verdict.status) && ProxyFailure(verdict.status) then
      s.proxyBlockedUntil[endpoint := now + Seconds(task.config.probe.retrySeconds)]
    else s.proxyBlockedUntil
  }

  /** The fetch of an attempt returns. */
  function LandStep(s: State, now: Time, t: nat, value: string, verdict: Verdict): State {
    if t !in s.tasks || !s.tasks[t].phase.Fetching? then s
    else
      var task := s.tasks[t];
      s.(tasks := s.tasks[t := Landed(task, value, verdict)],
         accountBlockedUntil := AccountCoolDown(s, now, task, verdict),
         proxyBlockedUntil := ProxyCoolDown(s, now, task, task.phase.endpoint, verdict))
  }

  /** The loop has ended: by itself, or because the shared deadline passed. */
  predicate MayFinish(task: Task, expired: bool) {
    || task.phase == Leaving
    || (task.phase == Looping && (expired || !MayPick(task)))
  }

  predicate QuotaOutcome(outcome: Outcome) {
    outcome.Refusal? && QuotaStatus(outcome.status)
  }

  predicate Promotes(s: State, now: Time, task: Task) {
    && s.accepting && task.candidate.Some?
    && Newer(s.current, task.key, task.candidate.value) && Fresh(task.candidate.value, now)
  }

  function Backoff(blocked: map<Key, Time>, now: Time, task: Task): map<Key, Time> {
    if QuotaOutcome(task.outcome) then blocked[task.key := now + Seconds(task.config.probe.quotaBackoffSeconds)]
    else blocked
  }

  function EndHistory(history: seq<HistoryEntry>, now: Time, task: Task, promoted: bool): seq<HistoryEntry> {
    var probed := AppendHistory(history, Probed(now, task.key, task.outcome, task.reason));
    if promoted then AppendHistory(probed, Promoted(now, task.key, task.reason)) else probed
  }

  /** Last section, once the generation fence is passed. */
  function OwnFinish(s: State, now: Time, t: nat): State
    requires t in s.tasks
  {
    var task := s.tasks[t];
    var k := task.key;
    var promoted := Promotes(s, now, task);
    s.(probing := s.probing - {k}, probeResults := s.probeResults[k := task.outcome],
       history := EndHistory(s.history, now, task, promoted),
       current := if promoted then s.current[k := task.candidate.value] else s.current,
       refreshRequests := if promoted then Drop(s.refreshRequests, k) else s.refreshRequests,
       blockedUntil := if promoted then Drop(Backoff(s.blockedUntil, now, task), k)
                       else Backoff(s.blockedUntil, now, task),
       accountBlockedUntil := if promoted then Drop(s.accountBlockedUntil, k.account) else s.accountBlockedUntil,
       forceInject := if promoted then s.forceInject + {k} else s.forceInject,
       tasks := if promoted && s.config.stateFile != "" then s.tasks[t := task.(phase := Saving(s.config.stateFile))]
                else Drop(s.tasks, t))
  }

  /** The generation fence. */
  function FencedFinish(s: State, now: Time, t: nat): State
    requires t in s.tasks
  {
    if s.tasks[t].generation != s.generation then s.(tasks := Drop(s.tasks, t)) else OwnFinish(s, now, t)
  }

  predicate Ends(s: State, t: nat, expired: bool) {
    t in s.tasks && MayFinish(s.tasks[t], expired)
  }

  /** Last section. */
  function FinishStep(s: State, now: Time, t: nat, expired: bool): State {
    if !Ends(s, t, expired) then s else FencedFinish(s, now, t)
  }

  /** Is probe t about to persist, and is the persist lock free? */
  predicate Persists(s: State, t: nat) {
    s.writer.None? && t in s.tasks && s.tasks[t].phase.Saving?
  }

  /** `persistCurrent` of a promoting probe up to its snapshot; there is no generation check, only the path
      must still be the configured one. */
  function PersistStep(s: State, t: nat): State {
    var inForce := Persists(s, t) && s.tasks[t].phase.path == s.config.stateFile;
    s.(writer := if inForce then Some(Writer(s.config.stateFile, s.current, Some(t))) else s.writer,
       tasks := if inForce then s.tasks[t := s.tasks[t].(phase := Writing)]
                else if Persists(s, t) then Drop(s.tasks, t) else s.tasks)
  }

  /** The section after a failed persist. */
  function NoteFailureStep(s: State, t: nat): State {
    var ends := t in s.tasks && s.tasks[t].phase == Unsaved;
    s.(tasks := if ends then Drop(s.tasks, t) else s.tasks,
       probeResults := if ends then s.probeResults[s.tasks[t].key := PersistFailed] else s.probeResults)
  }

  // ----- request hooks -----

  /** First section of `interceptAfter`. */
  function DetachStep(s: State, id: string): State {
    s.(refreshRequests := if id in s.requests then Requeued(s, s.requests[id].key, CredentialRetry)
                          else s.refreshRequests,
       requests := Drop(s.requests, id), candidates := Drop(s.candidates, id))
  }

  predicate InjectionScope(s: State, account: string, model: string, requested: string) {
    var policy := CredentialFor(s.config, account);
    && s.accepting && policy.Some? && !policy.value.plan.Free?
    && (Matches(policy.value.models, model) || Matches(policy.value.models, requested))
  }

  predicate Binds(s: State, id: string, account: string, model: string, requested: string) {
    && account != "" && Trim(model) != ""
    && InjectionScope(s, account, model, requested)
    && id != "" && AutoUpdate(s.config, CredentialFor(s.config, account).value)
  }

  /** Second section of `interceptAfter`, its effect. */
  function BindStep(s: State, id: string, account: string, model: string, requested: string): State {
    if !Binds(s, id, account, model, requested) then s
    else s.(candidates := Drop(s.candidates, id),
            requests := s.requests[id := Binding(account, KeyOf(account, model), "")])
  }

  datatype Injection = Untouched | Cleared | Injected(value: string)

  predicate Injectable(s: State, now: Time, k: Key) {
    && k in s.current && s.current[k].issuedAt <= now + SKEW
    && (s.config.injectExpired || Fresh(s.current[k], now))
    && (EnabledByDefault(s.config.injectOnErrorsOnly) ==> k in s.forceInject)
  }

  /** Second section of `interceptAfter`, its answer. */
  function InjectionOf(s: State, now: Time, account: string, model: string, requested: string): Injection {
    var k := KeyOf(account, model);
    if account == "" || k.model == "" || !InjectionScope(s, account, model, requested) then Untouched
    else if !Injectable(s, now, k) then Cleared
    else Injected(s.current[k].value)
  }

  /** What `captureCandidate` would stage. */
  function Captured(s: State, now: Time, id: string, header: string): Option<Candidate> {
    var value := Trim(header);
    if id == "" || value == "" || id !in s.requests || !s.accepting then None
    else
      var binding := s.requests[id];
      var policy := CredentialFor(s.config, binding.account);
      var parsed := Fernet.Parse(value, s.config.maxStateBytes);
      if policy.None? || !AutoUpdate(s.config, policy.value) || parsed.Bad? then None
      else
        var st := Stored(value, Seconds(parsed.info.issuedAt), parsed.info.blocks);
        if !NormalBlocks(policy.value, st.blocks) || st.issuedAt > now + SKEW || !Fresh(st, now) then None
        else if !Newer(s.current, binding.key, st) then None
        else Some(Candidate(binding.account, binding.key, st))
  }

  function CaptureStep(s: State, now: Time, id: string, header: string): State {
    match Captured(s, now, id, header)
    case None => s
    case Some(candidate) => s.(candidates := s.candidates[id := candidate])
  }

  /** The event classifier `streamFailureReason`, JSON decoding included. */
  type Classifier = string -> Option<Reason>

  function ReasonOf(classify: Classifier, text: string): seq<Reason> {
    if classify(text).Some? then [classify(text).value] else []
  }

  function ReasonsIn(classify: Classifier, texts: seq<string>): seq<Reason> {
    if texts == [] then [] else ReasonOf(classify, texts[0]) + ReasonsIn(classify, texts[1..])
  }

  function PayloadsOf(frames: seq<string>): seq<string> {
    if frames == [] then [] else [Sse.Payload(frames[0])] + PayloadsOf(frames[1..])
  }

  lemma {:induction false} ReasonsAppend(classify: Classifier, a: seq<string>, b: seq<string>)
    ensures ReasonsIn(classify, a + b) == ReasonsIn(classify, a) + ReasonsIn(classify, b)
  {
    hide ReasonOf;
    if a == [] {
      assert a + b == b;
    } else {
      assert (a + b)[1..] == a[1..] + b;
      ReasonsAppend(classify, a[1..], b);
      Sse.Assoc(ReasonOf(classify, a[0]), ReasonsIn(classify, a[1..]), ReasonsIn(classify, b));
    }
  }

  lemma {:induction false} PayloadsAppend(a: seq<string>, b: seq<string>)
    ensures PayloadsOf(a + b) == PayloadsOf(a) + PayloadsOf(b)
  {
    hide Sse.Payload;
    if a == [] {
      assert a + b == b;
    } else {
      assert (a + b)[1..] == a[1..] + b;
      PayloadsAppend(a[1..], b);
      Sse.Assoc([Sse.Payload(a[0])], PayloadsOf(a[1..]), PayloadsOf(b));
    }
  }

  /** A burst of reasons is coalesced into its first. */
  function RequeuedAll(s: State, k: Key, reasons: seq<Reason>): map<Key, Reason> {
    if reasons == [] then s.refreshRequests else Requeued(s, k, reasons[0])
  }

  /** The failures one stream chunk reveals: its finished frames, then a raw JSON text. */
  function FailuresIn(s: State, id: string, chunk: string, json: Sse.Json, classify: Classifier): seq<Reason> {
    if id in s.requests then
      var seen := Sse.Feed(json, s.requests[id].buffer, chunk);
      ReasonsIn(classify, PayloadsOf(seen.frames)) + ReasonsIn(classify, seen.raws)
    else []
  }

  /** `observeStreamFailure` */
  function ObserveStep(s: State, id: string, chunk: string, json: Sse.Json, classify: Classifier): State {
    if id !in s.requests then s
    else
      var binding := s.requests[id];
      var reasons := FailuresIn(s, id, chunk, json, classify);
      s.(refreshRequests := RequeuedAll(s, binding.key, reasons),
          requests := s.requests[id := binding.(buffer := Sse.Feed(json, binding.buffer, chunk).carry)],
          candidates := if reasons == [] then s.candidates else Drop(s.candidates, id))
  }

  datatype Completion = Succeeded | Failed | Neither

  predicate CompletionPromotes(s: State, now: Time, id: string, outcome: Completion) {
    && id in s.candidates && s.accepting && outcome == Succeeded
    && Fresh(s.candidates[id].state, now) && Newer(s.current, s.candidates[id].key, s.candidates[id].state)
  }

  /** The pending refreshes after the failure report of a completion. */
  function CompletionQueue(s: State, id: string, outcome: Completion, code: int, error: string): map<Key, Reason> {
    if id in s.requests && outcome == Failed && FailureReason(code, error).Some?
    then Requeued(s, s.requests[id].key, FailureReason(code, error).value) else s.refreshRequests
  }

  /** `complete` */
  function CompleteStep(s: State, now: Time, id: string, outcome: Completion, code: int, error: string): State {
    var promotes := CompletionPromotes(s, now, id, outcome);
    var queue := CompletionQueue(s, id, outcome, code, error);
    s.(forceInject := if id in s.requests && outcome == Succeeded then s.forceInject - {s.requests[id].key}
                      else s.forceInject,
       candidates := Drop(s.candidates, id), requests := Drop(s.requests, id),
       current := if promotes then s.current[s.candidates[id].key := s.candidates[id].state] else s.current,
       refreshRequests := if promotes then Drop(queue, s.candidates[id].key) else queue)
  }

  // ----- management -----

  /** `keys` stands for the entry handles; the digests are taken to be injective. */
  datatype Selector = Selector(all: bool, keys: set<Key>, accounts: set<string>, models: set<string>)

  predicate Names(sel: Selector, k: Key) {
    k in sel.keys || k.account in sel.accounts || Lower(k.model) in sel.models
  }

  predicate Managed(s: State, k: Key) {
    k.account != "" && k.model != "" && CredentialFor(s.config, k.account).Some?
  }

  /** Does a manual refresh queue k? */
  predicate Refreshable(s: State, now: Time, sel: Selector, k: Key) {
    && s.accepting && s.config.probe.enabled
    && (k in s.current || k in s.probeResults || k in s.probing)
    && Managed(s, k) && (sel.all || Names(sel, k))
    && !(k in s.probeResults && s.probeResults[k] == AuthUnavailable)
    && AutoUpdate(s.config, CredentialFor(s.config, k.account).value)
    && Matches(CredentialFor(s.config, k.account).value.models, k.model)
    && k !in s.probing && !Waiting(s.blockedUntil, k, now)
    && !(k in s.lastProbe && s.lastProbe[k] + Seconds(s.config.probe.retrySeconds) > now)
  }

  function QueuedOf(s: State, now: Time, sel: Selector, keys: set<Key>): set<Key> {
    set k | k in keys && Refreshable(s, now, sel, k)
  }

  function Queued(s: State, now: Time, sel: Selector): set<Key> {
    QueuedOf(s, now, sel, s.current.Keys + s.probeResults.Keys + s.probing)
  }

  function Mark<K>(m: map<K, Reason>, keys: set<K>, reason: Reason): map<K, Reason> {
    m + (map k | k in keys :: reason)
  }

  /** `refreshAction` */
  function RefreshStep(s: State, now: Time, sel: Selector): State {
    var keys := Queued(s, now, sel);
    s.(refreshRequests := Mark(s.refreshRequests, keys, Manual),
       probeReasons := Mark(s.probeReasons, keys, Manual),
       history := if keys == {} then s.history
                  else AppendHistory(s.history, ManualRefresh(now)))
  }

  datatype Scope = Invalid | Expired | Everything

  predicate Selected(sel: Selector, k: Key) {
    (sel.keys == {} && sel.accounts == {} && sel.models == {}) || Names(sel, k)
  }

  /** Does a clear of this scope take the entry st of k? */
  predicate Takes(cfg: Config, now: Time, scope: Scope, sel: Selector, k: Key, st: Stored) {
    && k.account != "" && k.model != "" && Selected(sel, k)
    && var policy := CredentialFor(cfg, k.account);
       match scope
       case Invalid =>
         !(&& st.value != "" && st.issuedAt <= now + SKEW && Fresh(st, now)
           && policy.Some? && Matches(policy.value.models, k.model) && NormalBlocks(policy.value, st.blocks))
       case Expired => st.value == "" || !Fresh(st, now)
       case Everything => true
  }

  function Removed(s: State, now: Time, scope: Scope, sel: Selector): set<Key> {
    set k | k in s.current && Takes(s.config, now, scope, sel, k, s.current[k])
  }

  /** Keys whose probe bookkeeping goes because no state is left. */
  function Forgotten(s: State, current: map<Key, Stored>, sel: Selector): set<Key> {
    set k | k in s.probeResults && k !in current && Selected(sel, k)
  }

  /** `clearAction` */
  function ClearStep(s: State, now: Time, scope: Scope, sel: Selector): State {
    var gone := Removed(s, now, scope, sel);
    var current := s.current - gone;
    var idle := Forgotten(s, current, sel);
    s.(current := current, refreshRequests := s.refreshRequests - gone - idle,
       probeResults := s.probeResults - idle, probeReasons := s.probeReasons - idle,
       lastProbe := s.lastProbe - idle, blockedUntil := s.blockedUntil - idle,
       history := if gone == {} then s.history
                  else AppendHistory(s.history, ClearedBy(now, scope)))
  }

  // ----- lifecycle -----

  /** What opening and decoding the state file yields. */
  datatype FileView = Missing | Corrupt | Entries(values: map<Key, string>)

  function Load(file: map<Key, string>, maxBytes: int): map<Key, Stored> {
    map k | k in file && Fernet.Parse(file[k], maxBytes).Ok? ::
      Stored(file[k], Seconds(Fernet.Parse(file[k], maxBytes).info.issuedAt),
             Fernet.Parse(file[k], maxBytes).info.blocks)
  }

  predicate RawSeedOk(credential: Credential, maxBytes: int) {
    Trim(credential.state) == "" ||
    (&& credential.stateModel != "" && '*' !in credential.stateModel
     && Fernet.Parse(credential.state, maxBytes).Ok?
     && NormalBlocks(credential, Fernet.Parse(credential.state, maxBytes).info.blocks))
  }

  /** The checks of `configure` on the decoded configuration; None stands for every error. */
  function Prepare(raw: RawConfig): Option<Config> {
    var maxBytes := OrDefault(raw.maxStateBytes, 4096);
    var probe := NormalizeProbe(raw.probe);
    if maxBytes < 256 || maxBytes > MAX_STATE_BYTES || probe.None? then None
    else if raw.defaults.Some? && (NormalizeCredential(raw.defaults.value).None?
                                   || Trim(raw.defaults.value.state) != "") then None
    else if exists id | id in raw.credentials ::
              Trim(id) == "" || Trim(id) != id || NormalizeCredential(raw.credentials[id]).None? then None
    else
      var credentials := map id | id in raw.credentials :: NormalizeCredential(raw.credentials[id]).value;
      if exists id | id in credentials :: !RawSeedOk(credentials[id], maxBytes) then None
      else
        Some(Config(raw.enabled, raw.autoUpdate, raw.injectExpired, raw.injectOnErrorsOnly, raw.stateFile, maxBytes,
                    if raw.defaults.Some? then NormalizeCredential(raw.defaults.value) else None,
                    credentials, probe.value))
  }

  predicate HasSeed(cfg: Config, k: Key) {
    && k.account in cfg.credentials && Trim(cfg.credentials[k.account].state) != ""
    && k.model == cfg.credentials[k.account].stateModel
    && Fernet.Parse(cfg.credentials[k.account].state, cfg.maxStateBytes).Ok?
  }

  function SeedOf(cfg: Config, k: Key): Stored
    requires HasSeed(cfg, k)
  {
    var parsed := Fernet.Parse(cfg.credentials[k.account].state, cfg.maxStateBytes);
    Stored(Trim(cfg.credentials[k.account].state), Seconds(parsed.info.issuedAt), parsed.info.blocks)
  }

  function Seeds(cfg: Config): map<Key, Stored> {
    map k | k in (set id | id in cfg.credentials :: Key(id, cfg.credentials[id].stateModel)) && HasSeed(cfg, k) ::
        SeedOf(cfg, k)
  }

  predicate InScope(cfg: Config, k: Key, st: Stored) {
    var policy := CredentialFor(cfg, k.account);
    policy.Some? && k.model != "" && Matches(policy.value.models, k.model) && NormalBlocks(policy.value, st.blocks)
  }

  predicate Joins(cfg: Config, into: map<Key, Stored>, from: map<Key, Stored>, k: Key) {
    k in from && InScope(cfg, k, from[k]) && Newer(into, k, from[k])
  }

  /** One merge loop of `configure`: a state in scope replaces an older one. */
  function Merge(cfg: Config, into: map<Key, Stored>, from: map<Key, Stored>): map<Key, Stored> {
    into + (map k | k in from && Joins(cfg, into, from, k) :: from[k])
  }

  function Configured(cfg: Config, file: FileView, memory: map<Key, Stored>): map<Key, Stored> {
    var loaded := if file.Entries? then Load(file.values, cfg.maxStateBytes) else map[];
    Merge(cfg, Merge(cfg, Seeds(cfg), loaded), memory)
  }

  /** Does `configure` get past its checks? Without a path no file is opened. */
  predicate Accepts(raw: RawConfig, file: FileView) {
    Prepare(raw).Some? && (Trim(raw.stateFile) == "" ==> file.Missing?) && !file.Corrupt?
  }

  /** `configure` */
  function ConfigureStep(s: State, raw: RawConfig, file: FileView): State {
    if !Accepts(raw, file) then s
    else
      var cfg := Prepare(raw).value;
      s.(accepting := cfg.enabled, config := cfg, live := true, generation := s.generation + 1,
         current := Configured(cfg, file, s.current), requests := map[], candidates := map[],
         probing := {}, lastProbe := map[], probeResults := map[], probeReasons := map[], refreshRequests := map[],
         blockedUntil := map[], accountBlockedUntil := map[], proxyBlockedUntil := map[], forceInject := {})
  }

  /** `setAccepting(false)` */
  function QuiesceStep(s: State): State {
    s.(accepting := false, live := false)
  }

  /** `shutdown` */
  function ShutdownStep(s: State): State {
    s.(accepting := false, live := false, generation := s.generation + 1, requests := map[], candidates := map[])
  }

  // ----- the state file -----

  /** `persistCurrent` of a completion or a clear up to its snapshot: the persist lock is free; an empty or
      stale path does nothing. */
  function SnapshotStep(s: State, path: string): State {
    s.(writer := if s.writer.Some? || path == "" || path != s.config.stateFile then s.writer
                 else Some(Writer(path, s.current, None)))
  }

  /** The probes when the write is over: one that wrote is done, or left with its failure. */
  function Written(tasks: map<nat, Task>, writer: Option<Writer>, ok: bool): map<nat, Task> {
    if writer.Some? && writer.value.owner.Some? && writer.value.owner.value in tasks
       && tasks[writer.value.owner.value].phase == Writing
    then
      var t := writer.value.owner.value;
      if ok then Drop(tasks, t) else tasks[t := tasks[t].(phase := Unsaved)]
    else tasks
  }

  /** The file is replaced, or the attempt fails and leaves it alone; the lock is released. */
  function WriteStep(s: State, ok: bool): State {
    s.(writer := None, tasks := Written(s.tasks, s.writer, ok),
       disk := if s.writer.Some? && ok then s.disk[s.writer.value.path := s.writer.value.snapshot] else s.disk)
  }

  // ----- the machine -----

  datatype Act =
    | Begin(key: Key)
    | Resolve(task: nat, found: bool)
    | Pick(task: nat)
    | Land(task: nat, value: string, verdict: Verdict)
    | Finish(task: nat, expired: bool)
    | Persist(task: nat)
    | NoteFailure(task: nat)
    | Detach(id: string)
    | Bind(id: string, account: string, model: string, requested: string)
    | Capture(id: string, header: string)
    | Observe(id: string, chunk: string, json: Sse.Json, classify: Classifier)
    | Complete(id: string, outcome: Completion, code: int, error: string)
    | Refresh(sel: Selector)
    | Clear(scope: Scope, sel: Selector)
    | Configure(raw: RawConfig, file: FileView)
    | Quiesce
    | Shutdown
    | Snapshot(path: string)
    | Write(ok: bool)

  datatype Event = Event(at: Time, act: Act)

  function Step(s: State, e: Event): State {
    match e.act
    case Begin(k) => BeginStep(s, e.at, k)
    case Resolve(t, found) => ResolveStep(s, t, found)
    case Pick(t) => PickStep(s, e.at, t)
    case Land(t, value, verdict) => LandStep(s, e.at, t, value, verdict)
    case Finish(t, expired) => FinishStep(s, e.at, t, expired)
    case Persist(t) => PersistStep(s, t)
    case NoteFailure(t) => NoteFailureStep(s, t)
    case Detach(id) => DetachStep(s, id)
    case Bind(id, account, model, requested) => BindStep(s, id, account, model, requested)
    case Capture(id, header) => CaptureStep(s, e.at, id, header)
    case Observe(id, chunk, json, classify) => ObserveStep(s, id, chunk, json, classify)
    case Complete(id, outcome, code, error) => CompleteStep(s, e.at, id, outcome, code, error)
    case Refresh(sel) => RefreshStep(s, e.at, sel)
    case Clear(scope, sel) => ClearStep(s, e.at, scope, sel)
    case Configure(raw, file) => ConfigureStep(s, raw, file)
    case Quiesce => QuiesceStep(s)
    case Shutdown => ShutdownStep(s)
    case Snapshot(path) => SnapshotStep(s, path)
    case Write(ok) => WriteStep(s, ok)
  }

  const NO_PROBE := Probe(false, None, [], 0, 0, 0, 0, None, None, None, 0)
  const NO_CONFIG := Config(false, None, false, None, "", 0, None, map[], NO_PROBE)

  /** `newRuntimeState`, before the first `configure`. */
  const INIT := State(false, NO_CONFIG, false, 0, map[], map[], map[], {}, map[], map[], map[], map[], map[], map[],
                      map[], {}, [], 0, map[], None, map[])

  /** The state after the first n events of a run. */
  function At(es: seq<Event>, n: nat): State
    requires n <= |es|
  {
    if n == 0 then INIT else Step(At(es, n - 1), es[n - 1])
  }

  lemma AtNext(es: seq<Event>, n: nat)
    requires n < |es|
    ensures At(es, n + 1) == Step(At(es, n), es[n])
  {
    hide Step;
  }

  /** The clock never goes back. */
  predicate ClockOk(es: seq<Event>) {
    forall i, j | 0 <= i < j < |es| :: es[i].at <= es[j].at
  }
}
