/** How the attempt loop of a probe goes on and how it ends, over whole runs. */
module Endings {
  import opened Wrappers
  import opened Policy
  import opened Machine
  import opened Frames
  import opened Invariant
  import opened Probes
  import Attempts
  import Rates

  // ----- what moves a probe -----

  /** What an event other than an end makes of probe t. */
  function Moved(s: State, e: Event, t: nat): Task
    requires t in s.tasks
  {
    var task := s.tasks[t];
    match e.act
    case Resolve(u, found) => if u == t && task.phase == Resolving then Resolved(task, found) else task
    case Pick(u) =>
      if u == t && MayPick(task) then Picked(task, Waiting(s.proxyBlockedUntil, EndpointOf(task), e.at)) else task
    case Land(u, value, verdict) => if u == t && task.phase.Fetching? then Landed(task, value, verdict) else task
    case _ => task
  }

  predicate MayEnd(a: Act) {
    a.Finish? || a.Persist? || a.NoteFailure? || a.Write?
  }

  lemma ResolveTask(s: State, e: Event, t: nat)
    requires t in s.tasks && e.act.Resolve?
    ensures var tasks := ResolveStep(s, e.act.task, e.act.found).tasks; t in tasks && tasks[t] == Moved(s, e, t)
  {
    hide Resolved;
  }

  lemma PickTask(s: State, now: Time, u: nat, t: nat)
    requires t in s.tasks
    ensures var tasks := PickStep(s, now, u).tasks;
            && t in tasks
            && tasks[t] == if u == t && MayPick(s.tasks[t])
                           then Picked(s.tasks[t], Waiting(s.proxyBlockedUntil, EndpointOf(s.tasks[t]), now))
                           else s.tasks[t]
  {
    hide Picked, Waiting, EndpointOf;
  }

  lemma LandTask(s: State, e: Event, t: nat)
    requires t in s.tasks && e.act.Land?
    ensures var tasks := LandStep(s, e.at, e.act.task, e.act.value, e.act.verdict).tasks;
            t in tasks && tasks[t] == Moved(s, e, t)
  {
    hide Landed, AccountCoolDown, ProxyCoolDown;
  }

  lemma OtherTask(s: State, e: Event, t: nat)
    requires t in s.tasks && t < s.poolCursor && !MayEnd(e.act)
    requires !e.act.Resolve? && !e.act.Pick? && !e.act.Land?
    ensures t in Step(s, e).tasks && Step(s, e).tasks[t] == s.tasks[t]
  {
    hide Step, BeginStep, MayStart, NewTask;
    if e.act.Begin? {
      StepIs(s, e);
      BeginTasks(s, e.at, e.act.key);
    } else {
      TasksKept(s, e);
    }
  }

  lemma TaskMoves(s: State, e: Event, t: nat)
    requires t in s.tasks && t < s.poolCursor && !MayEnd(e.act)
    ensures t in Step(s, e).tasks && Step(s, e).tasks[t] == Moved(s, e, t)
  {
    hide Step, ResolveStep, PickStep, LandStep, Resolved, Picked, Landed, MayPick, Waiting, EndpointOf;
    if e.act.Resolve? {
      StepIs(s, e);
      ResolveTask(s, e, t);
    } else if e.act.Pick? {
      StepIs(s, e);
      PickTask(s, e.at, e.act.task, t);
    } else if e.act.Land? {
      StepIs(s, e);
      LandTask(s, e, t);
    } else {
      OtherTask(s, e, t);
    }
  }

  /** An end changes nothing of a probe but its phase. */
  predicate OnlyConcludes(before: map<nat, Task>, after: map<nat, Task>, t: nat) {
    t in after ==>
      t in before && (after[t] == before[t]
                      || (Concluded(after[t].phase) && after[t] == before[t].(phase := after[t].phase)))
  }

  lemma FinishConcludes(s: State, now: Time, u: nat, expired: bool, t: nat)
    requires t in s.tasks
    ensures OnlyConcludes(s.tasks, FinishStep(s, now, u, expired).tasks, t)
    ensures var tasks := FinishStep(s, now, u, expired).tasks;
            (t in tasks && tasks[t] == s.tasks[t]) || (u == t && MayFinish(s.tasks[t], expired))
  {
    FinishIs(s, now, u, expired);
    if u in s.tasks {
      FinishedParts(s, now, u);
    }
    hide FinishStep, OwnFinish, Promotes, Backoff, MayFinish;
  }

  lemma PersistConcludes(s: State, u: nat, t: nat)
    requires t in s.tasks
    ensures OnlyConcludes(s.tasks, PersistStep(s, u).tasks, t)
    ensures !Concluded(s.tasks[t].phase) ==> t in PersistStep(s, u).tasks && PersistStep(s, u).tasks[t] == s.tasks[t]
  {
    PersistParts(s, u);
    hide PersistStep;
  }

  lemma NoteFailureConcludes(s: State, u: nat, t: nat)
    requires t in s.tasks
    ensures OnlyConcludes(s.tasks, NoteFailureStep(s, u).tasks, t)
    ensures !Concluded(s.tasks[t].phase) ==>
              t in NoteFailureStep(s, u).tasks && NoteFailureStep(s, u).tasks[t] == s.tasks[t]
  {
  }

  lemma WriteConcludes(s: State, ok: bool, t: nat)
    requires t in s.tasks
    ensures OnlyConcludes(s.tasks, WriteStep(s, ok).tasks, t)
    ensures !Concluded(s.tasks[t].phase) ==> t in WriteStep(s, ok).tasks && WriteStep(s, ok).tasks[t] == s.tasks[t]
  {
  }

  lemma TaskConcludes(s: State, e: Event, t: nat)
    requires t in s.tasks && (e.act.Finish? || e.act.Persist? || e.act.NoteFailure? || e.act.Write?)
    ensures OnlyConcludes(s.tasks, Step(s, e).tasks, t)
    ensures !Concluded(s.tasks[t].phase) ==>
              || (t in Step(s, e).tasks && Step(s, e).tasks[t] == s.tasks[t])
              || (e.act.Finish? && e.act.task == t && MayFinish(s.tasks[t], e.act.expired))
  {
    hide *;
    StepIs(s, e);
    match e.act
    case Finish(u, expired) => FinishConcludes(s, e.at, u, expired, t);
    case Persist(u) => PersistConcludes(s, u, t);
    case NoteFailure(u) => NoteFailureConcludes(s, u, t);
    case Write(ok) => WriteConcludes(s, ok, t);
  }

  /** A probe that is new after a step. */
  lemma NewTaskAfter(s: State, e: Event, t: nat)
    requires t in Step(s, e).tasks && t !in s.tasks
    ensures e.act.Begin? && t == s.poolCursor
    ensures var task := Step(s, e).tasks[t];
            && task.phase == Resolving && task.offset == 0 && task.attempts == 0
            && task.outcome == AuthUnavailable && task.candidate.None? && task.startedAt == e.at
  {
    hide Step, BeginStep, MayStart, GoesOn;
    if e.act.Begin? {
      StepIs(s, e);
      BeginTasks(s, e.at, e.act.key);
      if MayStart(s, e.at, e.act.key) {
        NewTaskFields(s, e.at, e.act.key);
      }
    } else {
      ProbesMove(s, e);
    }
  }

  lemma NewTaskFields(s: State, now: Time, k: Key)
    requires MayStart(s, now, k)
    ensures var task := NewTask(s, now, k);
            && task.phase == Resolving && task.offset == 0 && task.attempts == 0
            && task.outcome == AuthUnavailable && task.candidate.None? && task.startedAt == now
  {
    hide Due, StartReason, Matches;
  }

  // ----- the events of a loop -----

  /** The host answers for the credential of probe t. */
  predicate Resolves(s: State, e: Event, t: nat, found: bool) {
    e.act == Resolve(t, found) && t in s.tasks && s.tasks[t].phase == Resolving
  }

  /** A fetch of probe t returns. */
  predicate Answered(s: State, e: Event, t: nat) {
    e.act.Land? && e.act.task == t && t in s.tasks && s.tasks[t].phase.Fetching?
  }

  /** A fetch of probe t fails for a reason that lies with its account. */
  predicate AccountFails(s: State, e: Event, t: nat) {
    Answered(s, e, t) && e.act.verdict.Refused? && AccountFailure(e.act.verdict.status)
  }

  /** A fetch of probe t delivers a state that it may keep. */
  predicate Delivered(s: State, e: Event, t: nat) {
    Answered(s, e, t) && e.act.verdict.Delivered? && Attempts.Acceptable(s.tasks[t], e.act.value)
  }

  predicate Decides(s: State, e: Event, t: nat) {
    Resolves(s, e, t, false) || AccountFails(s, e, t) || Delivered(s, e, t)
  }

  predicate InLoop(phase: Phase) {
    phase == Looping || phase.Fetching?
  }

  lemma LandedPhase(task: Task, value: string, verdict: Verdict)
    ensures var after := Landed(task, value, verdict);
            && (after.phase == Looping || after.phase == Leaving)
            && (after.phase == Leaving <==>
                  if verdict.Refused? then AccountFailure(verdict.status) else Attempts.Acceptable(task, value))
  {
    Attempts.AcceptableIsKept(task, value);
    hide Attempts.Acceptable, ProbeCandidate, AccountFailure;
  }

  /** How an event that does not end a probe moves its phase: found tells of a credential, decides of an event that
      decides the loop. */
  predicate PhaseRule(before: Phase, after: Phase, found: bool, decides: bool) {
    && (after == Leaving <==> before == Leaving || decides)
    && (InLoop(after) <==> found || (InLoop(before) && !decides))
    && (after == Resolving ==> before == Resolving)
    && (Concluded(after) <==> Concluded(before))
  }

  lemma RuleOfNothing(before: Phase)
    ensures PhaseRule(before, before, false, false)
  {
  }

  lemma RuleOfAnswer(endpoint: nat, after: Phase, decides: bool)
    requires after == if decides then Leaving else Looping
    ensures PhaseRule(Fetching(endpoint), after, false, decides)
  {
  }

  lemma ResolvedPhase(s: State, e: Event, t: nat)
    requires t in s.tasks && e.act.Resolve?
    ensures PhaseRule(s.tasks[t].phase, Moved(s, e, t).phase, Resolves(s, e, t, true), Decides(s, e, t))
  {
    hide AccountFailure, Attempts.Acceptable;
  }

  lemma PickedPhase(s: State, e: Event, t: nat)
    requires t in s.tasks && e.act.Pick?
    ensures PhaseRule(s.tasks[t].phase, Moved(s, e, t).phase, Resolves(s, e, t, true), Decides(s, e, t))
  {
    hide Waiting, EndpointOf, AccountFailure, Attempts.Acceptable;
  }

  lemma LandDecides(s: State, e: Event, t: nat)
    requires t in s.tasks && e.act.Land?
    ensures !Resolves(s, e, t, true)
    ensures Decides(s, e, t) <==>
              Answered(s, e, t) && if e.act.verdict.Refused? then AccountFailure(e.act.verdict.status)
                                   else Attempts.Acceptable(s.tasks[t], e.act.value)
  {
    hide AccountFailure, Attempts.Acceptable;
  }

  lemma LandMoves(s: State, e: Event, t: nat)
    requires t in s.tasks && e.act.Land?
    ensures Answered(s, e, t) ==> s.tasks[t].phase.Fetching?
    ensures Moved(s, e, t) == if Answered(s, e, t) then Landed(s.tasks[t], e.act.value, e.act.verdict) else s.tasks[t]
  {
    hide Landed;
  }

  lemma AnsweredPhase(s: State, e: Event, t: nat)
    requires t in s.tasks && e.act.Land?
    ensures PhaseRule(s.tasks[t].phase, Moved(s, e, t).phase, Resolves(s, e, t, true), Decides(s, e, t))
  {
    hide *;
    LandDecides(s, e, t);
    LandMoves(s, e, t);
    if Answered(s, e, t) {
      LandedPhase(s.tasks[t], e.act.value, e.act.verdict);
      RuleOfAnswer(s.tasks[t].phase.endpoint, Moved(s, e, t).phase, Decides(s, e, t));
    } else {
      RuleOfNothing(s.tasks[t].phase);
    }
  }

  lemma OtherPhase(s: State, e: Event, t: nat)
    requires t in s.tasks && !e.act.Resolve? && !e.act.Pick? && !e.act.Land?
    ensures PhaseRule(s.tasks[t].phase, Moved(s, e, t).phase, Resolves(s, e, t, true), Decides(s, e, t))
  {
    hide AccountFailure, Attempts.Acceptable;
  }

  lemma MovedPhase(s: State, e: Event, t: nat)
    requires t in s.tasks
    ensures PhaseRule(s.tasks[t].phase, Moved(s, e, t).phase, Resolves(s, e, t, true), Decides(s, e, t))
  {
    hide *;
    if e.act.Resolve? {
      ResolvedPhase(s, e, t);
    } else if e.act.Pick? {
      PickedPhase(s, e, t);
    } else if e.act.Land? {
      AnsweredPhase(s, e, t);
    } else {
      OtherPhase(s, e, t);
    }
  }

  // ----- over runs -----

  /** An event before n decided the loop of probe t. */
  predicate Decided(es: seq<Event>, n: nat, t: nat)
    requires n <= |es|
  {
    exists l: nat :: l < n && Decides(At(es, l), es[l], t)
  }

  predicate Found(es: seq<Event>, n: nat, t: nat)
    requires n <= |es|
  {
    exists r: nat :: r < n && Resolves(At(es, r), es[r], t, true)
  }

  lemma InUse(es: seq<Event>, l: nat, n: nat, t: nat)
    requires l <= n <= |es| && t in At(es, l).tasks
    ensures t < At(es, n).poolCursor
  {
    hide At, Step, Inv;
    Reachable(es, l);
    CursorsBelow(At(es, l));
    CursorGrows(es, l, n);
  }

  lemma NothingYet(es: seq<Event>, n: nat, t: nat)
    requires n <= |es| && At(es, n).poolCursor <= t
    ensures !Decided(es, n, t) && !Found(es, n, t)
  {
    hide At;
    forall l: nat | l < n ensures !Decides(At(es, l), es[l], t) && !Resolves(At(es, l), es[l], t, true) {
      if t in At(es, l).tasks {
        InUse(es, l, n, t);
      }
      hide Attempts.Acceptable, AccountFailure;
    }
  }

  lemma DecidedNext(es: seq<Event>, n: nat, t: nat)
    requires n < |es|
    ensures Decided(es, n + 1, t) <==> Decided(es, n, t) || Decides(At(es, n), es[n], t)
    ensures Found(es, n + 1, t) <==> Found(es, n, t) || Resolves(At(es, n), es[n], t, true)
  {
    hide At, Decides, Resolves;
  }

  lemma EndDecidesNothing(s: State, e: Event, t: nat)
    requires MayEnd(e.act) || e.act.Begin?
    ensures !Decides(s, e, t) && !Resolves(s, e, t, true)
  {
    hide Attempts.Acceptable, AccountFailure;
  }

  lemma ConcludedBefore(s: State, e: Event, t: nat)
    requires t in s.tasks && t < s.poolCursor && t in Step(s, e).tasks && !Concluded(Step(s, e).tasks[t].phase)
    ensures !Concluded(s.tasks[t].phase)
    ensures Step(s, e).tasks[t] == if MayEnd(e.act) then s.tasks[t] else Moved(s, e, t)
  {
    hide Step, Moved;
    if MayEnd(e.act) {
      TaskConcludes(s, e, t);
    } else {
      TaskMoves(s, e, t);
      MovedPhase(s, e, t);
    }
  }

  /** Where a probe in flight is: it has left its loop exactly if its credential was missing, a fetch failed for its
      account, or a fetch delivered a state that it may keep; it is in its loop exactly if its credential was
      found and nothing of that kind happened since. */
  lemma {:induction false} LeavesIfDecided(es: seq<Event>, n: nat, t: nat)
    requires n <= |es| && t in At(es, n).tasks && !Concluded(At(es, n).tasks[t].phase)
    ensures At(es, n).tasks[t].phase == Leaving <==> Decided(es, n, t)
    ensures InLoop(At(es, n).tasks[t].phase) <==> Found(es, n, t) && !Decided(es, n, t)
  {
    hide At, Step, Inv, Moved, Decides, Resolves, Decided, Found, MayEnd;
    NotAtStart(es, t);
    var s, e := At(es, n - 1), es[n - 1];
    AtNext(es, n - 1);
    DecidedNext(es, n - 1, t);
    if t in s.tasks {
      InUse(es, n - 1, n - 1, t);
      ConcludedBefore(s, e, t);
      LeavesIfDecided(es, n - 1, t);
      if MayEnd(e.act) {
        EndDecidesNothing(s, e, t);
      } else {
        MovedPhase(s, e, t);
      }
    } else {
      NewTaskAfter(s, e, t);
      NothingYet(es, n - 1, t);
      EndDecidesNothing(s, e, t);
    }
  }

  lemma NotAtStart(es: seq<Event>, t: nat)
    ensures t !in At(es, 0).tasks
  {
  }

  // ----- what comes after a decision -----

  lemma InLoopPicks(s: State, e: Event, t: nat)
    requires Rates.Fetches(s, e, t)
    ensures t in s.tasks && InLoop(s.tasks[t].phase) && !Concluded(s.tasks[t].phase)
  {
    hide EndpointOf, Waiting;
  }

  /** In every run: after a failure of its account, or a state that it may keep, or without a credential, probe t
      goes through no further proxy. */
  lemma DecisionEndsFetches(es: seq<Event>, l: nat, n: nat, t: nat)
    requires l < n < |es| && Decides(At(es, l), es[l], t)
    ensures !Rates.Fetches(At(es, n), es[n], t)
  {
    hide At, Decides, Rates.Fetches;
    if Rates.Fetches(At(es, n), es[n], t) {
      InLoopPicks(At(es, n), es[n], t);
      LeavesIfDecided(es, n, t);
    }
  }

  /** The head of the loop of probe t: the entry whose turn it is, o places after the probe's cursor. */
  predicate HasTurn(task: Task, o: nat, p: nat) {
    o < |task.config.probe.pool| && task.offset == o && p == (task.cursor + o) % |task.config.probe.pool|
  }

  lemma PickedIs(task: Task, cooling: bool)
    requires task.phase == Looping && task.offset < |task.config.probe.pool|
    requires task.attempts < task.config.probe.maxAttempts
    ensures MayPick(task) && EndpointOf(task) == (task.cursor + task.offset) % |task.config.probe.pool|
    ensures Picked(task, cooling)
         == if cooling then task.(offset := task.offset + 1)
            else task.(phase := Fetching((task.cursor + task.offset) % |task.config.probe.pool|),
                       offset := task.offset + 1, attempts := task.attempts + 1)
  {
  }

  lemma PickedAtHead(s: State, e: Event, t: nat)
    requires e.act == Pick(t) && t in s.tasks && s.tasks[t].phase == Looping
    requires s.tasks[t].offset < |s.tasks[t].config.probe.pool|
    requires s.tasks[t].attempts < s.tasks[t].config.probe.maxAttempts
    ensures var task, after := s.tasks[t], Moved(s, e, t);
            var p: nat := (task.cursor + task.offset) % |task.config.probe.pool|;
            after == if Waiting(s.proxyBlockedUntil, p, e.at) then task.(offset := task.offset + 1)
                     else task.(phase := Fetching(p), offset := task.offset + 1, attempts := task.attempts + 1)
  {
    PickedIs(s.tasks[t], Waiting(s.proxyBlockedUntil, EndpointOf(s.tasks[t]), e.at));
    hide Waiting, Picked, MayPick, EndpointOf;
  }

  /** In every run: as long as nothing decided its loop and no fetch of it is under way, the next turn of probe t
      goes to the next entry of the pool; a cooling one is skipped, through every other one a fetch begins. So
      a failure that is no account's, and a state that is not acceptable, lead on to the next proxy. */
  lemma LoopGoesOn(es: seq<Event>, n: nat, t: nat)
    requires n < |es| && es[n].act == Pick(t) && Found(es, n, t) && !Decided(es, n, t)
    requires t in At(es, n).tasks
    requires !Concluded(At(es, n).tasks[t].phase) && !At(es, n).tasks[t].phase.Fetching?
    ensures t in At(es, n + 1).tasks
    ensures var task, after := At(es, n).tasks[t], At(es, n + 1).tasks[t];
            var pool := |task.config.probe.pool|;
            task.offset < pool && task.attempts < task.config.probe.maxAttempts ==>
              var p: nat := (task.cursor + task.offset) % pool;
              after == if Waiting(At(es, n).proxyBlockedUntil, p, es[n].at) then task.(offset := task.offset + 1)
                       else task.(phase := Fetching(p), offset := task.offset + 1, attempts := task.attempts + 1)
  {
    hide At, Step, Moved, Decided, Found, Waiting;
    AtNext(es, n);
    InUse(es, n, n, t);
    LeavesIfDecided(es, n, t);
    TaskMoves(At(es, n), es[n], t);
    var task := At(es, n).tasks[t];
    if task.offset < |task.config.probe.pool| && task.attempts < task.config.probe.maxAttempts {
      PickedAtHead(At(es, n), es[n], t);
    }
  }

  // ----- a proxy that failed -----

  /** A fetch through entry p returns. */
  predicate AnsweredThrough(s: State, e: Event, p: nat) {
    e.act.Land? && e.act.task in s.tasks && s.tasks[e.act.task].phase == Fetching(p)
  }

  lemma LandedProxies(s: State, now: Time, t: nat, value: string, verdict: Verdict, p: nat)
    requires !(t in s.tasks && s.tasks[t].phase == Fetching(p))
    ensures var proxies := LandStep(s, now, t, value, verdict).proxyBlockedUntil;
            && (p in proxies <==> p in s.proxyBlockedUntil)
            && (p in proxies ==> proxies[p] == s.proxyBlockedUntil[p])
  {
    hide Landed, AccountCoolDown, AccountFailure, ProxyFailure;
  }

  lemma ProxyStep(s: State, e: Event, p: nat)
    requires !Reconfigures(e) && !AnsweredThrough(s, e, p) && p in s.proxyBlockedUntil
    ensures p in Step(s, e).proxyBlockedUntil && Step(s, e).proxyBlockedUntil[p] == s.proxyBlockedUntil[p]
  {
    hide Step, LandStep, Reconfigures;
    if e.act.Land? {
      StepIs(s, e);
      LandedProxies(s, e.at, e.act.task, e.act.value, e.act.verdict, p);
    } else {
      StepFootprint(s, e);
    }
  }

  predicate Untouched(es: seq<Event>, i: nat, n: nat, p: nat)
    requires n <= |es|
  {
    forall j | i <= j < n :: !Reconfigures(es[j]) && !AnsweredThrough(At(es, j), es[j], p)
  }

  lemma {:induction false} ProxyStays(es: seq<Event>, i: nat, n: nat, p: nat)
    requires i <= n <= |es| && p in At(es, i).proxyBlockedUntil && Untouched(es, i, n, p)
    ensures p in At(es, n).proxyBlockedUntil && At(es, n).proxyBlockedUntil[p] == At(es, i).proxyBlockedUntil[p]
  {
    hide At, Step, Reconfigures, AnsweredThrough;
    if i < n {
      AtNext(es, n - 1);
      ProxyStays(es, i, n - 1, p);
      ProxyStep(At(es, n - 1), es[n - 1], p);
    }
  }

  lemma ProxyAnswer(s: State, e: Event, t: nat)
    requires Answered(s, e, t)
    ensures var task, proxies := s.tasks[t], LandStep(s, e.at, t, e.act.value, e.act.verdict).proxyBlockedUntil;
            var p := task.phase.endpoint;
            && (e.act.verdict.Delivered? ==> p !in proxies)
            && (e.act.verdict.Refused? && !AccountFailure(e.act.verdict.status)
                && ProxyFailure(e.act.verdict.status) ==>
                  p in proxies && proxies[p] == e.at + Seconds(task.config.probe.retrySeconds))
  {
    hide Landed, AccountCoolDown, AccountFailure, ProxyFailure, Seconds;
  }

  lemma FetchIsNotWaiting(s: State, e: Event, u: nat, p: nat)
    requires Rates.Fetches(s, e, u) && EndpointOf(s.tasks[u]) == p && p in s.proxyBlockedUntil
    ensures e.at >= s.proxyBlockedUntil[p]
  {
    hide EndpointOf;
  }

  /** In every run: through a proxy that failed no probe goes again before the retry time of the probe that met the
      failure is over, unless another fetch through it returns meanwhile, or a configuration is taken. */
  lemma ProxyRests(es: seq<Event>, l: nat, n: nat, t: nat, u: nat)
    requires l < n < |es| && Answered(At(es, l), es[l], t) && es[l].act.verdict.Refused?
    requires !AccountFailure(es[l].act.verdict.status) && ProxyFailure(es[l].act.verdict.status)
    requires Untouched(es, l + 1, n, At(es, l).tasks[t].phase.endpoint)
    requires Rates.Fetches(At(es, n), es[n], u)
    requires EndpointOf(At(es, n).tasks[u]) == At(es, l).tasks[t].phase.endpoint
    ensures es[n].at >= es[l].at + Seconds(At(es, l).tasks[t].config.probe.retrySeconds)
  {
    hide At, Step, LandStep, Untouched, Rates.Fetches, EndpointOf, Seconds, AccountFailure, ProxyFailure;
    AtNext(es, l);
    StepIs(At(es, l), es[l]);
    ProxyAnswer(At(es, l), es[l], t);
    ProxyStays(es, l + 1, n, At(es, l).tasks[t].phase.endpoint);
    FetchIsNotWaiting(At(es, n), es[n], u, At(es, l).tasks[t].phase.endpoint);
  }

  // ----- why a loop ends -----

  /** Entry p had its turn in the loop of probe t: it was cooling then, or a fetch through it began. */
  predicate HadTurn(s: State, s': State, e: Event, t: nat, p: nat) {
    && e.act == Pick(t) && t in s.tasks && t in s'.tasks && HasTurn(s.tasks[t], s.tasks[t].offset, p)
    && (Waiting(s.proxyBlockedUntil, p, e.at) || s'.tasks[t].phase == Fetching(p))
  }

  predicate TurnTaken(es: seq<Event>, n: nat, t: nat, p: nat)
    requires n <= |es|
  {
    exists j: nat :: j < n && HadTurn(At(es, j), At(es, j + 1), es[j], t, p)
  }

  lemma TurnTakenNext(es: seq<Event>, n: nat, t: nat, p: nat)
    requires n < |es|
    ensures TurnTaken(es, n + 1, t, p) <==> TurnTaken(es, n, t, p) || HadTurn(At(es, n), At(es, n + 1), es[n], t, p)
  {
    hide At, HadTurn;
  }

  lemma OffsetMoves(s: State, e: Event, t: nat)
    requires t in s.tasks
    ensures var task, after := s.tasks[t], Moved(s, e, t);
            && after.config == task.config && after.cursor == task.cursor
            && (after.offset == task.offset
                || (&& e.act == Pick(t) && task.phase == Looping && task.offset < |task.config.probe.pool|
                    && task.attempts < task.config.probe.maxAttempts && after.offset == task.offset + 1))
  {
    hide Waiting, EndpointOf, AccountFailure, ProbeCandidate;
  }

  lemma TurnIsHad(s: State, s': State, e: Event, t: nat, p: nat)
    requires e.act == Pick(t) && t in s.tasks && t in s'.tasks && HasTurn(s.tasks[t], s.tasks[t].offset, p)
    requires Waiting(s.proxyBlockedUntil, p, e.at) || s'.tasks[t].phase == Fetching(p)
    ensures HadTurn(s, s', e, t, p)
  {
  }

  /** Every entry that a probe has passed had its turn. */
  lemma {:induction false} PassedHadTurn(es: seq<Event>, n: nat, t: nat, o: nat)
    requires n <= |es| && t in At(es, n).tasks
    requires o < At(es, n).tasks[t].offset && o < |At(es, n).tasks[t].config.probe.pool|
    ensures var task := At(es, n).tasks[t]; TurnTaken(es, n, t, (task.cursor + o) % |task.config.probe.pool|)
  {
    hide At, Step, Inv, Moved, TurnTaken, MayEnd, Waiting;
    NotAtStart(es, t);
    var s, e, task := At(es, n - 1), es[n - 1], At(es, n).tasks[t];
    var p: nat := (task.cursor + o) % |task.config.probe.pool|;
    AtNext(es, n - 1);
    TurnTakenNext(es, n - 1, t, p);
    if t in s.tasks {
      InUse(es, n - 1, n - 1, t);
      StaysOrMoves(s, e, t);
      OffsetMoves(s, e, t);
      if task.offset == s.tasks[t].offset || o < s.tasks[t].offset {
        PassedHadTurn(es, n - 1, t, o);
      } else {
        assert !MayEnd(e.act) && o == s.tasks[t].offset && HasTurn(s.tasks[t], o, p);
        PickedAtHead(s, e, t);
        TurnIsHad(s, At(es, n), e, t, p);
      }
    } else {
      NewTaskAfter(s, e, t);
    }
  }

  lemma StaysOrMoves(s: State, e: Event, t: nat)
    requires t in s.tasks && t < s.poolCursor && t in Step(s, e).tasks
    ensures var task, after := s.tasks[t], Step(s, e).tasks[t];
            if MayEnd(e.act) then after == task || (Concluded(after.phase) && after == task.(phase := after.phase))
            else after == Moved(s, e, t)
  {
    hide Step, Moved;
    if MayEnd(e.act) {
      TaskConcludes(s, e, t);
    } else {
      TaskMoves(s, e, t);
    }
  }

  /** Every entry of a pool has its turn at some offset. */
  lemma EveryEntry(cursor: nat, n: nat, p: nat)
    requires p < n
    ensures exists o: nat :: o < n && EntryAt(cursor, n, o) == p
  {
    var c, q := cursor % n, cursor / n;
    assert cursor == q * n + c;
    if c <= p {
      Remainder(q, n, p);
      assert EntryAt(cursor, n, p - c) == p;
    } else {
      assert (q + 1) * n == q * n + n;
      Remainder(q + 1, n, p);
      assert EntryAt(cursor, n, p + n - c) == p;
    }
  }

  lemma Remainder(q: nat, n: nat, p: nat)
    requires p < n
    ensures (q * n + p) % n == p
  {
    var x := q * n + p;
    var d := x / n - q;
    assert x == (x / n) * n + x % n;
    assert d * n == (x / n) * n - q * n;
    Attempts.Multiples(d, n);
    Attempts.Multiples(-d, n);
    assert (-d) * n == -(d * n);
  }

  /** The last section of probe t takes place. */
  predicate Concludes(s: State, s': State, e: Event, t: nat) {
    && e.act.Finish? && e.act.task == t && t in s.tasks && !Concluded(s.tasks[t].phase)
    && (t !in s'.tasks || Concluded(s'.tasks[t].phase))
  }

  lemma AttemptsCount(es: seq<Event>, f: nat, t: nat)
    requires f <= |es| && t in At(es, f).tasks
    ensures Rates.FetchCount(es, f, {t}) == At(es, f).tasks[t].attempts
  {
    hide At, Rates.FetchCount;
    ProbeIsLaunched(es, f, t);
    var b: nat :| LaunchedBy(es, b, f, t);
    Rates.AttemptsAreFetches(es, b, f, t);
  }

  lemma AllHadTurn(es: seq<Event>, f: nat, t: nat)
    requires f <= |es| && t in At(es, f).tasks
    requires At(es, f).tasks[t].offset >= |At(es, f).tasks[t].config.probe.pool|
    ensures forall p: nat | p < |At(es, f).tasks[t].config.probe.pool| :: TurnTaken(es, f, t, p)
  {
    hide At, TurnTaken;
    var task := At(es, f).tasks[t];
    forall p: nat | p < |task.config.probe.pool| ensures TurnTaken(es, f, t, p) {
      EveryEntry(task.cursor, |task.config.probe.pool|, p);
      var o: nat :| o < |task.config.probe.pool| && EntryAt(task.cursor, |task.config.probe.pool|, o) == p;
      PassedHadTurn(es, f, t, o);
    }
  }

  lemma FinishedHow(task: Task, expired: bool)
    requires MayFinish(task, expired)
    ensures task.phase == Leaving
         || (task.phase == Looping && (expired || task.offset >= |task.config.probe.pool|
                                       || task.attempts >= task.config.probe.maxAttempts))
  {
  }

  /** Why a loop ends, in every run: the shared deadline has passed, or an event decided it, or all attempts are
      used up, or every entry of the pool had its turn. */
  lemma LoopEndsFor(es: seq<Event>, f: nat, t: nat)
    requires f < |es| && Concludes(At(es, f), At(es, f + 1), es[f], t)
    ensures var task := At(es, f).tasks[t];
            || es[f].act.expired
            || Decided(es, f, t)
            || Rates.FetchCount(es, f, {t}) >= task.config.probe.maxAttempts
            || forall p: nat | p < |task.config.probe.pool| :: TurnTaken(es, f, t, p)
  {
    hide At, Step, Inv, Decided, TurnTaken, Found, Rates.FetchCount;
    var task := At(es, f).tasks[t];
    AtNext(es, f);
    TaskConcludes(At(es, f), es[f], t);
    LeavesIfDecided(es, f, t);
    FinishedHow(task, es[f].act.expired);
    AttemptsCount(es, f, t);
    if task.phase == Looping && task.offset >= |task.config.probe.pool| {
      AllHadTurn(es, f, t);
    }
  }

  // ----- what a probe reports -----

  /** The last fetch of probe t that has returned. */
  function LastAnswer(es: seq<Event>, n: nat, t: nat): Option<nat>
    requires n <= |es|
  {
    if n == 0 then None
    else if Answered(At(es, n - 1), es[n - 1], t) then Some(n - 1)
    else LastAnswer(es, n - 1, t)
  }

  lemma {:induction false} LastAnswerIs(es: seq<Event>, n: nat, t: nat)
    requires n <= |es|
    ensures var l := LastAnswer(es, n, t);
            l.Some? ==> l.value < n && Answered(At(es, l.value), es[l.value], t)
    ensures forall j: nat :: j < n && Answered(At(es, j), es[j], t) ==>
              LastAnswer(es, n, t).Some? && j <= LastAnswer(es, n, t).value
  {
    hide At, Answered;
    if n > 0 {
      LastAnswerIs(es, n - 1, t);
    }
  }

  /** What an answer makes of the outcome: the refusal itself, or whether the state was acceptable. */
  function OutcomeOf(task: Task, e: Event): Outcome
    requires e.act.Land?
  {
    if e.act.verdict.Refused? then Refusal(e.act.verdict.status)
    else if Attempts.Acceptable(task, e.act.value) then Accepted else StateRejected
  }

  function KeptOf(task: Task, e: Event): Option<Stored>
    requires e.act.Land?
  {
    if e.act.verdict.Delivered? && Attempts.Acceptable(task, e.act.value)
    then Some(Attempts.StateOf(task, e.act.value)) else None
  }

  lemma LandedOutcome(task: Task, e: Event)
    requires e.act.Land? && task.candidate.None?
    ensures var after := Landed(task, e.act.value, e.act.verdict);
            after.outcome == OutcomeOf(task, e) && after.candidate == KeptOf(task, e)
  {
    Attempts.AcceptableIsKept(task, e.act.value);
    hide Attempts.Acceptable, ProbeCandidate, AccountFailure, Attempts.StateOf;
  }

  lemma MovedOutcome(s: State, e: Event, t: nat)
    requires t in s.tasks && (s.tasks[t].phase.Fetching? ==> s.tasks[t].candidate.None?)
    ensures var task, after := s.tasks[t], Moved(s, e, t);
            && (Answered(s, e, t) ==> after.outcome == OutcomeOf(task, e) && after.candidate == KeptOf(task, e))
            && (!Answered(s, e, t) ==>
                  after.outcome == (if Resolves(s, e, t, true) then ProbeFailed else task.outcome)
                  && after.candidate == task.candidate)
  {
    if Answered(s, e, t) {
      LandedOutcome(s.tasks[t], e);
    }
    hide Landed, Waiting, EndpointOf, AccountFailure, Attempts.Acceptable;
  }

  /** What a probe reports and keeps is what its last answer says; without an answer, whether it had a
      credential. */
  predicate Honest(es: seq<Event>, n: nat, t: nat, task: Task)
    requires n <= |es|
  {
    var l := LastAnswer(es, n, t);
    if l.None? then
      task.candidate.None? && task.outcome == if Found(es, n, t) then ProbeFailed else AuthUnavailable
    else
      && l.value < n && Answered(At(es, l.value), es[l.value], t)
      && task.outcome == OutcomeOf(At(es, l.value).tasks[t], es[l.value])
      && task.candidate == KeptOf(At(es, l.value).tasks[t], es[l.value])
  }

  lemma LastAnswerNext(es: seq<Event>, n: nat, t: nat)
    requires n < |es|
    ensures LastAnswer(es, n + 1, t) == if Answered(At(es, n), es[n], t) then Some(n) else LastAnswer(es, n, t)
  {
    hide At, Answered;
  }

  lemma {:induction false} NoAnswerYet(es: seq<Event>, n: nat, t: nat)
    requires n <= |es| && At(es, n).poolCursor <= t
    ensures LastAnswer(es, n, t).None?
  {
    hide At, Answered;
    LastAnswerIs(es, n, t);
    var l := LastAnswer(es, n, t);
    if l.Some? {
      AnswerInUse(At(es, l.value), es[l.value], t);
      InUse(es, l.value, n, t);
    }
  }

  lemma AnswerInUse(s: State, e: Event, t: nat)
    requires Answered(s, e, t)
    ensures t in s.tasks && e.act.Land? && s.tasks[t].phase.Fetching? && !MayEnd(e.act)
  {
  }

  lemma HonestNext(es: seq<Event>, n: nat, t: nat)
    requires n < |es| && t in At(es, n).tasks && t in At(es, n + 1).tasks && t < At(es, n).poolCursor
    requires Honest(es, n, t, At(es, n).tasks[t])
    requires At(es, n).tasks[t].phase.Fetching? ==> At(es, n).tasks[t].candidate.None?
    requires At(es, n).tasks[t].phase == Resolving ==> LastAnswer(es, n, t).None?
    ensures Honest(es, n + 1, t, At(es, n + 1).tasks[t])
  {
    hide At, Step, Moved, Answered, Resolves, Found, Decided, OutcomeOf, KeptOf;
    var s, e := At(es, n), es[n];
    AtNext(es, n);
    LastAnswerNext(es, n, t);
    DecidedNext(es, n, t);
    StaysOrMoves(s, e, t);
    if MayEnd(e.act) {
      EndAnswersNothing(s, e, t);
      EndDecidesNothing(s, e, t);
    } else {
      MovedOutcome(s, e, t);
      AnswerResolvesNothing(s, e, t);
      ResolvesAre(s, e, t);
    }
  }

  lemma ResolvesAre(s: State, e: Event, t: nat)
    ensures Resolves(s, e, t, true) ==> t in s.tasks && s.tasks[t].phase == Resolving
  {
  }

  lemma EndAnswersNothing(s: State, e: Event, t: nat)
    requires MayEnd(e.act) || e.act.Begin?
    ensures !Answered(s, e, t)
  {
  }

  lemma AnswerResolvesNothing(s: State, e: Event, t: nat)
    ensures Answered(s, e, t) ==> !Resolves(s, e, t, true) && e.act.Land?
  {
  }

  lemma NotFetchingWithCandidate(s: State, t: nat)
    requires Inv(s) && t in s.tasks && s.tasks[t].phase.Fetching?
    ensures s.tasks[t].candidate.None?
  {
    TaskAt(s, t);
    hide Inv, ConfigOk, CountersOk, Genuine, NormalBlocks, CredentialFor;
  }

  lemma NotAnsweredYet(es: seq<Event>, n: nat, t: nat)
    requires n <= |es| && t in At(es, n).tasks && At(es, n).tasks[t].phase == Resolving
    ensures LastAnswer(es, n, t).None?
  {
    hide At, LastAnswer, Answered, Resolves, Decides;
    LastAnswerIs(es, n, t);
    LeavesIfDecided(es, n, t);
    var l := LastAnswer(es, n, t);
    if l.Some? {
      AnswerInUse(At(es, l.value), es[l.value], t);
      LeavesIfDecided(es, l.value, t);
      assert false;
    }
  }

  lemma {:induction false} OutcomeIsHonest(es: seq<Event>, n: nat, t: nat)
    requires n <= |es| && t in At(es, n).tasks
    ensures Honest(es, n, t, At(es, n).tasks[t])
  {
    hide At, Step, Inv, Honest;
    NotAtStart(es, t);
    AtNext(es, n - 1);
    var s, e := At(es, n - 1), es[n - 1];
    if t in s.tasks {
      OutcomeIsHonest(es, n - 1, t);
      Reachable(es, n - 1);
      InUse(es, n - 1, n - 1, t);
      if s.tasks[t].phase.Fetching? { NotFetchingWithCandidate(s, t); }
      if s.tasks[t].phase == Resolving { NotAnsweredYet(es, n - 1, t); }
      HonestNext(es, n - 1, t);
    } else {
      FreshIsHonest(es, n, t);
    }
  }

  lemma FreshIsHonest(es: seq<Event>, n: nat, t: nat)
    requires 0 < n <= |es| && t in At(es, n).tasks && t !in At(es, n - 1).tasks
    ensures Honest(es, n, t, At(es, n).tasks[t])
  {
    hide At, Step, Answered, Resolves, Found, Decided;
    AtNext(es, n - 1);
    NewTaskAfter(At(es, n - 1), es[n - 1], t);
    NothingYet(es, n - 1, t);
    NoAnswerYet(es, n - 1, t);
    LastAnswerNext(es, n - 1, t);
    DecidedNext(es, n - 1, t);
    EndAnswersNothing(At(es, n - 1), es[n - 1], t);
    EndDecidesNothing(At(es, n - 1), es[n - 1], t);
  }

  /** The newest entries of the history tell of the probe's end, and then of its promotion. */
  lemma HistoryTells(history: seq<HistoryEntry>, now: Time, task: Task, promoted: bool)
    ensures var after := EndHistory(history, now, task, promoted);
            var probed := Probed(now, task.key, task.outcome, task.reason);
            if promoted then
              |after| >= 2 && after[|after| - 2..] == [probed, Promoted(now, task.key, task.reason)]
            else after != [] && after[|after| - 1] == probed
  {
  }

  /** What the panel shows of a probe of the present generation when it ends is what its last answer said; the history
      notes it, and the promotion if the cache took the state. */
  lemma OutcomeIsReported(es: seq<Event>, f: nat, t: nat)
    requires f < |es| && Concludes(At(es, f), At(es, f + 1), es[f], t)
    requires At(es, f).tasks[t].generation == At(es, f).generation
    ensures var s, task, s', now := At(es, f), At(es, f).tasks[t], At(es, f + 1), es[f].at;
            && Honest(es, f, t, task)
            && task.key in s'.probeResults && s'.probeResults[task.key] == task.outcome
            && var probed := Probed(now, task.key, task.outcome, task.reason);
               if s'.current == s.current then s'.history != [] && s'.history[|s'.history| - 1] == probed
               else |s'.history| >= 2
                    && s'.history[|s'.history| - 2..] == [probed, Promoted(now, task.key, task.reason)]
  {
    hide At, Step, Honest, MayFinish, OwnFinish, FinishStep, EndHistory, Backoff;
    AtNext(es, f);
    OutcomeIsHonest(es, f, t);
    TaskConcludes(At(es, f), es[f], t);
    StepIs(At(es, f), es[f]);
    FinishIs(At(es, f), es[f].at, t, es[f].act.expired);
    FinishedParts(At(es, f), es[f].at, t);
    HistoryTells(At(es, f).history, es[f].at, At(es, f).tasks[t], Promotes(At(es, f), es[f].at, At(es, f).tasks[t]));
  }
}
