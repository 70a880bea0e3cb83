/** Probes over whole runs: slots, the generation fence, request rates and back-off. */
module Probes {
  import opened Wrappers
  import opened Policy
  import opened Machine
  import opened Frames
  import opened Invariant

  /** The events of one probe after its start. */
  predicate About(a: Act, t: nat) {
    || (a.Resolve? && a.task == t) || (a.Pick? && a.task == t) || (a.Land? && a.task == t)
    || (a.Finish? && a.task == t) || (a.Persist? && a.task == t) || (a.NoteFailure? && a.task == t)
  }

  // ----- what a step does to the running probes -----

  lemma BeginTasks(s: State, now: Time, k: Key)
    ensures var s' := BeginStep(s, now, k);
            && (!MayStart(s, now, k) ==> s' == s)
            && (MayStart(s, now, k) ==>
                  && s'.tasks == s.tasks[s.poolCursor := NewTask(s, now, k)] && s'.probing == s.probing + {k}
                  && s'.poolCursor == s.poolCursor + 1 && s'.lastProbe == s.lastProbe[k := now])
  {
    hide Due, StartReason, NewTask, Matches;
  }

  /** A probe moves only by its own events and the end of a write, and keeps what it started with. */
  predicate Moves(before: map<nat, Task>, after: map<nat, Task>, a: Act) {
    forall t | t in after ::
      t in before &&
      (|| after[t] == before[t]
       || (&& (About(a, t) || a.Write?) && GoesOn(before[t], after[t])
           && (a.Pick? || (after[t].attempts == before[t].attempts && after[t].offset == before[t].offset))
           && (a.Land? || after[t].candidate == before[t].candidate)))
  }

  lemma ResolveMoves(s: State, t: nat, found: bool)
    ensures Moves(s.tasks, ResolveStep(s, t, found).tasks, Resolve(t, found))
  {
  }

  lemma PickMoves(s: State, now: Time, t: nat)
    ensures Moves(s.tasks, PickStep(s, now, t).tasks, Pick(t))
  {
    hide EndpointOf, Waiting;
  }

  lemma LandMoves(s: State, now: Time, t: nat, value: string, verdict: Verdict)
    ensures Moves(s.tasks, LandStep(s, now, t, value, verdict).tasks, Land(t, value, verdict))
  {
    hide ProbeCandidate, AccountFailure, AccountCoolDown, ProxyCoolDown;
  }

  lemma FinishMoves(s: State, now: Time, t: nat, expired: bool)
    ensures Moves(s.tasks, FinishStep(s, now, t, expired).tasks, Finish(t, expired))
  {
    FinishIs(s, now, t, expired);
    if t in s.tasks {
      FinishedParts(s, now, t);
    }
    hide Ends, FinishStep, OwnFinish, Promotes, Backoff;
  }

  lemma PersistMoves(s: State, t: nat)
    ensures Moves(s.tasks, PersistStep(s, t).tasks, Persist(t))
  {
    PersistParts(s, t);
    hide PersistStep;
  }

  lemma NoteFailureMoves(s: State, t: nat)
    ensures Moves(s.tasks, NoteFailureStep(s, t).tasks, NoteFailure(t))
  {
  }

  lemma WriteMoves(s: State, ok: bool)
    ensures Moves(s.tasks, WriteStep(s, ok).tasks, Write(ok))
  {
  }

  lemma AttemptMoves(s: State, e: Event)
    requires e.act.Resolve? || e.act.Pick? || e.act.Land?
    ensures Moves(s.tasks, Step(s, e).tasks, e.act)
  {
    hide *;
    StepIs(s, e);
    match e.act
    case Resolve(t, found) => ResolveMoves(s, t, found);
    case Pick(t) => PickMoves(s, e.at, t);
    case Land(t, value, verdict) => LandMoves(s, e.at, t, value, verdict);
  }

  lemma EndMoves(s: State, e: Event)
    requires e.act.Finish? || e.act.Persist? || e.act.NoteFailure? || e.act.Write?
    ensures Moves(s.tasks, Step(s, e).tasks, e.act)
  {
    hide *;
    StepIs(s, e);
    match e.act
    case Finish(t, expired) => FinishMoves(s, e.at, t, expired);
    case Persist(t) => PersistMoves(s, t);
    case NoteFailure(t) => NoteFailureMoves(s, t);
    case Write(ok) => WriteMoves(s, ok);
  }

  lemma ProbesMove(s: State, e: Event)
    requires !e.act.Begin?
    ensures Moves(s.tasks, Step(s, e).tasks, e.act)
  {
    hide Step, GoesOn;
    if e.act.Resolve? || e.act.Pick? || e.act.Land? {
      AttemptMoves(s, e);
    } else if e.act.Finish? || e.act.Persist? || e.act.NoteFailure? || e.act.Write? {
      EndMoves(s, e);
    } else {
      TasksKept(s, e);
    }
  }

  // ----- single flight -----

  /** A slot has its probe. */
  predicate Manned(generation: nat, tasks: map<nat, Task>, k: Key) {
    exists t :: t in tasks && InFlight(generation, tasks[t]) && tasks[t].key == k
  }

  predicate AllManned(generation: nat, probing: set<Key>, tasks: map<nat, Task>) {
    forall k | k in probing :: Manned(generation, tasks, k)
  }

  predicate NoLeak(s: State) {
    s.live ==> AllManned(s.generation, s.probing, s.tasks)
  }

  lemma MannedStarts(generation: nat, probing: set<Key>, tasks: map<nat, Task>, cursor: nat, task: Task)
    requires AllManned(generation, probing, tasks) && InFlight(generation, task)
    requires forall t :: t in tasks ==> t < cursor
    ensures AllManned(generation, probing + {task.key}, tasks[cursor := task])
  {
    var tasks' := tasks[cursor := task];
    forall k | k in probing + {task.key} ensures Manned(generation, tasks', k) {
      if k == task.key {
        assert cursor in tasks' && InFlight(generation, tasks'[cursor]);
      } else {
        var t :| t in tasks && InFlight(generation, tasks[t]) && tasks[t].key == k;
        assert t in tasks' && tasks'[t] == tasks[t];
      }
    }
  }

  lemma MannedGoesOn(generation: nat, probing: set<Key>, tasks: map<nat, Task>, t: nat, after: Task)
    requires AllManned(generation, probing, tasks) && t in tasks
    requires after.key == tasks[t].key && after.generation == tasks[t].generation && !Concluded(after.phase)
    ensures AllManned(generation, probing, tasks[t := after])
  {
    forall k | k in probing ensures Manned(generation, tasks[t := after], k) {
      var u :| u in tasks && InFlight(generation, tasks[u]) && tasks[u].key == k;
      assert u in tasks[t := after] && InFlight(generation, tasks[t := after][u]);
    }
  }

  /** The end of a probe takes no slot but its own away from its probe. */
  lemma MannedEnds(generation: nat, probing: set<Key>, gone: set<Key>, tasks: map<nat, Task>, tasks': map<nat, Task>,
                   t: nat)
    requires AllManned(generation, probing, tasks) && t in tasks
    requires forall u :: u in tasks && u != t ==> u in tasks' && tasks'[u] == tasks[u]
    requires InFlight(generation, tasks[t]) ==> tasks[t].key in gone
    ensures AllManned(generation, probing - gone, tasks')
  {
    forall k | k in probing - gone ensures Manned(generation, tasks', k) {
      var u :| u in tasks && InFlight(generation, tasks[u]) && tasks[u].key == k;
      assert u != t && u in tasks' && InFlight(generation, tasks'[u]);
    }
  }

  lemma BeginNoLeak(s: State, now: Time, k: Key)
    requires Inv(s) && NoLeak(s)
    ensures NoLeak(BeginStep(s, now, k))
  {
    BeginTasks(s, now, k);
    BeginFrame(s, now, k);
    if MayStart(s, now, k) {
      CursorsBelow(s);
      NewTaskIs(s, now, k);
      hide Inv, AllManned, MayStart, NewTask, BeginStep, InFlight;
      if s.live { MannedStarts(s.generation, s.probing, s.tasks, s.poolCursor, NewTask(s, now, k)); }
    }
  }

  lemma NewTaskIs(s: State, now: Time, k: Key)
    requires MayStart(s, now, k)
    ensures var task := NewTask(s, now, k);
            && InFlight(s.generation, task) && task.key == k && task.config == s.config && task.candidate.None?
  {
    hide Due, StartReason, Matches;
  }

  lemma CursorsBelow(s: State)
    requires Inv(s)
    ensures forall t :: t in s.tasks ==> t < s.poolCursor
  {
    hide ConfigOk, AllAllowed, RequestsOk, FlightsOk, TaskOk;
  }

  /** The fields that decide about the slots. */
  predicate SameSlots(s: State, s': State) {
    s'.live == s.live && s'.generation == s.generation && s'.probing == s.probing
  }

  lemma GoingOnNoLeak(s: State, s': State, t: nat, after: Task)
    requires NoLeak(s) && SameSlots(s, s') && t in s.tasks && s'.tasks == s.tasks[t := after]
    requires after.key == s.tasks[t].key && after.generation == s.tasks[t].generation && !Concluded(after.phase)
    ensures NoLeak(s')
  {
    hide AllManned;
    if s.live { MannedGoesOn(s.generation, s.probing, s.tasks, t, after); }
  }

  lemma ResolveNoLeak(s: State, t: nat, found: bool)
    requires NoLeak(s)
    ensures NoLeak(ResolveStep(s, t, found))
  {
    hide NoLeak;
    ResolveFrame(s, t, found);
    if t in s.tasks && s.tasks[t].phase == Resolving {
      GoingOnNoLeak(s, ResolveStep(s, t, found), t, Resolved(s.tasks[t], found));
    }
  }

  lemma PickNoLeak(s: State, now: Time, t: nat)
    requires NoLeak(s)
    ensures NoLeak(PickStep(s, now, t))
  {
    hide NoLeak, EndpointOf, Waiting;
    PickFrame(s, now, t);
    if t in s.tasks && MayPick(s.tasks[t]) {
      GoingOnNoLeak(s, PickStep(s, now, t), t,
                    Picked(s.tasks[t], Waiting(s.proxyBlockedUntil, EndpointOf(s.tasks[t]), now)));
    }
  }

  lemma LandNoLeak(s: State, now: Time, t: nat, value: string, verdict: Verdict)
    requires NoLeak(s)
    ensures NoLeak(LandStep(s, now, t, value, verdict))
  {
    hide NoLeak, ProbeCandidate, AccountFailure, AccountCoolDown, ProxyCoolDown;
    LandFrame(s, now, t, value, verdict);
    if t in s.tasks && s.tasks[t].phase.Fetching? {
      GoingOnNoLeak(s, LandStep(s, now, t, value, verdict), t, Landed(s.tasks[t], value, verdict));
    }
  }

  lemma FinishNoLeak(s: State, now: Time, t: nat, expired: bool)
    requires NoLeak(s)
    ensures NoLeak(FinishStep(s, now, t, expired))
  {
    FinishFrame(s, now, t, expired);
    FinishIs(s, now, t, expired);
    hide Ends, FinishStep, OwnFinish, Promotes, Backoff, AllManned;
    if Ends(s, t, expired) && s.live {
      FinishedParts(s, now, t);
      var own := s.tasks[t].generation == s.generation;
      MannedEnds(s.generation, s.probing, if own then {s.tasks[t].key} else {}, s.tasks,
                 FinishStep(s, now, t, expired).tasks, t);
      assert s.probing - {} == s.probing;
    }
  }

  /** Concluded probes hold no slot, so what becomes of them takes none away. */
  lemma ConcludedNoLeak(s: State, s': State, t: nat)
    requires NoLeak(s) && SameSlots(s, s') && t in s.tasks && Concluded(s.tasks[t].phase)
    requires forall u :: u in s.tasks && u != t ==> u in s'.tasks && s'.tasks[u] == s.tasks[u]
    ensures NoLeak(s')
  {
    hide AllManned;
    if s.live {
      MannedEnds(s.generation, s.probing, {}, s.tasks, s'.tasks, t);
      assert s.probing - {} == s.probing;
    }
  }

  lemma PersistNoLeak(s: State, t: nat)
    requires NoLeak(s)
    ensures NoLeak(PersistStep(s, t))
  {
    hide PersistStep, AllManned;
    PersistFrame(s, t);
    PersistParts(s, t);
    if Persists(s, t) { ConcludedNoLeak(s, PersistStep(s, t), t); }
  }

  lemma NoteFailureNoLeak(s: State, t: nat)
    requires NoLeak(s)
    ensures NoLeak(NoteFailureStep(s, t))
  {
    hide AllManned;
    NoteFailureFrame(s, t);
    if t in s.tasks && s.tasks[t].phase == Unsaved { ConcludedNoLeak(s, NoteFailureStep(s, t), t); }
  }

  lemma WriteNoLeak(s: State, ok: bool)
    requires NoLeak(s)
    ensures NoLeak(WriteStep(s, ok))
  {
    hide AllManned;
    WriteFrame(s, ok);
    if WriteStep(s, ok).tasks != s.tasks { ConcludedNoLeak(s, WriteStep(s, ok), s.writer.value.owner.value); }
  }

  lemma LifecycleNoLeak(s: State, raw: RawConfig, file: FileView)
    requires NoLeak(s)
    ensures NoLeak(ConfigureStep(s, raw, file)) && NoLeak(QuiesceStep(s)) && NoLeak(ShutdownStep(s))
  {
    hide Accepts, Prepare, Configured, Manned;
  }

  lemma OtherNoLeak(s: State, e: Event)
    requires NoLeak(s) && !OfProbe(e.act) && !e.act.Write?
    ensures NoLeak(Step(s, e))
  {
    hide Step, ConfigureStep, QuiesceStep, ShutdownStep, AllManned, Accepts;
    if e.act.Configure? || e.act.Quiesce? || e.act.Shutdown? {
      hide NoLeak;
      StepIs(s, e);
      LifecycleNoLeak(s, if e.act.Configure? then e.act.raw else NO_RAW,
                      if e.act.Configure? then e.act.file else Missing);
    } else {
      StepFootprint(s, e);
    }
  }

  lemma StepNoLeak(s: State, e: Event)
    requires Inv(s) && NoLeak(s)
    ensures NoLeak(Step(s, e))
  {
    hide Inv, NoLeak, Step, BeginStep, ResolveStep, PickStep, LandStep, FinishStep, PersistStep, NoteFailureStep,
      WriteStep;
    match e.act
    case Begin(k) => StepIs(s, e); BeginNoLeak(s, e.at, k);
    case Resolve(t, found) => StepIs(s, e); ResolveNoLeak(s, t, found);
    case Pick(t) => StepIs(s, e); PickNoLeak(s, e.at, t);
    case Land(t, value, verdict) => StepIs(s, e); LandNoLeak(s, e.at, t, value, verdict);
    case Finish(t, expired) => StepIs(s, e); FinishNoLeak(s, e.at, t, expired);
    case Persist(t) => StepIs(s, e); PersistNoLeak(s, t);
    case NoteFailure(t) => StepIs(s, e); NoteFailureNoLeak(s, t);
    case Write(ok) => StepIs(s, e); WriteNoLeak(s, ok);
    case _ => OtherNoLeak(s, e);
  }

  const NO_RAW := RawConfig(false, None, false, None, "", 0, None, map[], NO_PROBE)

  lemma {:induction false} SlotsNeverLeak(es: seq<Event>, n: nat)
    requires n <= |es|
    ensures NoLeak(At(es, n))
  {
    hide Step;
    if n > 0 {
      SlotsNeverLeak(es, n - 1);
      Reachable(es, n - 1);
      hide NoLeak, Inv;
      StepNoLeak(At(es, n - 1), es[n - 1]);
    }
  }

  /** In every reachable state at most four keys are being probed; every probe of the present generation
      holds the slot of its key, no two of them share one, and, while probing is live, every slot
      is held. */
  lemma SingleFlight(es: seq<Event>, n: nat)
    requires n <= |es|
    ensures var s := At(es, n);
            && |s.probing| <= MAX_PROBES
            && (forall t :: t in s.tasks && InFlight(s.generation, s.tasks[t]) ==> s.tasks[t].key in s.probing)
            && (forall t, u :: (&& t in s.tasks && u in s.tasks && InFlight(s.generation, s.tasks[t])
                                && InFlight(s.generation, s.tasks[u]) && s.tasks[t].key == s.tasks[u].key) ==> t == u)
            && (s.live ==> forall k :: k in s.probing ==> Manned(s.generation, s.tasks, k))
  {
    Reachable(es, n);
    SlotsNeverLeak(es, n);
    hide At, ConfigOk, AllAllowed, RequestsOk, TasksOk, Manned, InFlight;
  }

  /** The last section of a probe of the present generation frees its slot, and no probe of the key is left. */
  lemma FinishFrees(es: seq<Event>, n: nat)
    requires n < |es| && es[n].act.Finish? && Ends(At(es, n), es[n].act.task, es[n].act.expired)
    requires At(es, n).tasks[es[n].act.task].generation == At(es, n).generation
    ensures var k, s' := At(es, n).tasks[es[n].act.task].key, At(es, n + 1);
            && k !in s'.probing
            && (forall t :: t in s'.tasks && InFlight(s'.generation, s'.tasks[t]) ==> s'.tasks[t].key != k)
  {
    var s, t, e := At(es, n), es[n].act.task, es[n];
    StepIs(s, e);
    FinishIs(s, e.at, t, e.act.expired);
    FinishedParts(s, e.at, t);
    Reachable(es, n + 1);
    hide At, Step, FinishStep, OwnFinish, Ends, ConfigOk, AllAllowed, RequestsOk, TasksOk, InFlight, Promotes, Backoff;
  }

  // ----- the generation fence -----

  /** What a probe carries from its start to its end. */
  predicate SameProbe(a: Task, b: Task) {
    && b.key == a.key && b.config == a.config && b.policy == a.policy && b.generation == a.generation
    && b.cursor == a.cursor && b.startedAt == a.startedAt && b.reason == a.reason
  }

  predicate StartsAt(s: State, e: Event, k: Key) {
    e.act == Begin(k) && MayStart(s, e.at, k)
  }

  lemma CursorStep(s: State, e: Event)
    ensures Step(s, e).poolCursor
         == s.poolCursor + if e.act.Begin? && StartsAt(s, e, e.act.key) then 1 else 0
  {
    hide Step, MayStart, BeginStep, ConfigureStep, Accepts;
    if e.act.Begin? {
      StepIs(s, e);
      BeginTasks(s, e.at, e.act.key);
    } else {
      StepFootprint(s, e);
    }
  }

  lemma {:induction false} CursorGrows(es: seq<Event>, m: nat, b: nat)
    requires m <= b <= |es|
    ensures At(es, m).poolCursor <= At(es, b).poolCursor
  {
    hide Step, MayStart;
    if m < b {
      CursorGrows(es, m, b - 1);
      CursorStep(At(es, b - 1), es[b - 1]);
    }
  }

  lemma TaskStep(s: State, e: Event, t: nat)
    requires t in Step(s, e).tasks && t < s.poolCursor
    ensures t in s.tasks && SameProbe(s.tasks[t], Step(s, e).tasks[t])
  {
    hide Step, MayStart, BeginStep, NewTask;
    if e.act.Begin? {
      StepIs(s, e);
      BeginTasks(s, e.at, e.act.key);
    } else {
      ProbesMove(s, e);
    }
  }

  /** A probe number is used once, and the probe behind it never changes its key, configuration or generation. */
  lemma {:induction false} ProbeIdentity(es: seq<Event>, b: nat, n: nat, t: nat)
    requires b <= n <= |es| && t < At(es, b).poolCursor
    ensures t < At(es, n).poolCursor
    ensures t in At(es, n).tasks ==> t in At(es, b).tasks && SameProbe(At(es, b).tasks[t], At(es, n).tasks[t])
  {
    hide Step, SameProbe;
    if b == n {
      assert forall task: Task :: SameProbe(task, task) by { SameItself(); }
    } else {
      ProbeIdentity(es, b, n - 1, t);
      CursorStep(At(es, n - 1), es[n - 1]);
      if t in At(es, n).tasks {
        TaskStep(At(es, n - 1), es[n - 1], t);
        SameChain(At(es, b).tasks[t], At(es, n - 1).tasks[t], At(es, n).tasks[t]);
      }
    }
  }

  lemma SameItself()
    ensures forall task: Task :: SameProbe(task, task)
  {
  }

  lemma SameChain(a: Task, b: Task, c: Task)
    requires SameProbe(a, b) && SameProbe(b, c)
    ensures SameProbe(a, c)
  {
  }

  lemma GenerationStep(s: State, e: Event)
    ensures Step(s, e).generation == if Bumps(e) then s.generation + 1 else s.generation
  {
    hide Step, ConfigureStep, Accepts, Prepare;
    if Reconfigures(e) {
      StepIs(s, e);
      ConfiguredParts(s, e.act.raw, e.act.file);
    } else if e.act.Shutdown? {
      StepIs(s, e);
    } else {
      StepFootprint(s, e);
    }
  }

  lemma {:induction false} GenerationGrows(es: seq<Event>, b: nat, n: nat)
    requires b <= n <= |es|
    ensures At(es, b).generation <= At(es, n).generation
  {
    hide Step, Bumps;
    if b < n {
      GenerationGrows(es, b, n - 1);
      GenerationStep(At(es, n - 1), es[n - 1]);
    }
  }

  /** All of the state but the probe itself, the unfenced cool-downs, the panel's last outcome and the state file. */
  predicate Unmoved(s: State, s': State) {
    && s'.current == s.current && s'.probing == s.probing && s'.refreshRequests == s.refreshRequests
    && s'.blockedUntil == s.blockedUntil && s'.forceInject == s.forceInject && s'.history == s.history
    && s'.lastProbe == s.lastProbe && s'.requests == s.requests && s'.candidates == s.candidates
    && s'.config == s.config && s'.generation == s.generation && s'.accepting == s.accepting && s'.live == s.live
  }

  lemma FencedStep(s: State, e: Event, t: nat)
    requires About(e.act, t) && (t in s.tasks ==> s.tasks[t].generation != s.generation)
    ensures Unmoved(s, Step(s, e))
  {
    hide Step, FinishStep, Unmoved;
    if e.act.Finish? {
      StepIs(s, e);
      FencedFinishUnmoved(s, e.at, t, e.act.expired);
    } else {
      StepFootprint(s, e);
      FootprintUnmoved(s, Step(s, e), e);
    }
  }

  lemma FootprintUnmoved(s: State, s': State, e: Event)
    requires Footprint(s, s', e) && (e.act.Resolve? || e.act.Pick? || e.act.Land? || e.act.Persist?
                                     || e.act.NoteFailure?)
    ensures Unmoved(s, s')
  {
    hide Accepts;
  }

  lemma FencedFinishUnmoved(s: State, now: Time, t: nat, expired: bool)
    requires t in s.tasks ==> s.tasks[t].generation != s.generation
    ensures Unmoved(s, FinishStep(s, now, t, expired))
  {
    FinishIs(s, now, t, expired);
    hide FinishStep, OwnFinish, MayFinish;
    if Ends(s, t, expired) {
      assert Unmoved(s, s.(tasks := Drop(s.tasks, t)));
    } else {
      assert Unmoved(s, s);
    }
  }

  /** Whatever a probe does after a later configure or shutdown leaves the cache, the slots, the pending
      refreshes, the back-offs, the injection flags and the history as they are. */
  lemma GenerationFence(es: seq<Event>, b: nat, i: nat, n: nat, k: Key)
    requires b < i < n < |es| && StartsAt(At(es, b), es[b], k) && Bumps(es[i])
    requires About(es[n].act, At(es, b).poolCursor)
    ensures Unmoved(At(es, n), At(es, n + 1))
  {
    hide Step, MayStart, Bumps, Unmoved;
    OldGeneration(es, b, i, n, k);
    FencedStep(At(es, n), es[n], At(es, b).poolCursor);
  }

  /** A probe that began before a bump is of an older generation ever after. */
  lemma OldGeneration(es: seq<Event>, b: nat, i: nat, n: nat, k: Key)
    requires b < i < n <= |es| && StartsAt(At(es, b), es[b], k) && Bumps(es[i])
    ensures var t := At(es, b).poolCursor;
            t in At(es, n).tasks ==>
              && At(es, n).tasks[t].generation < At(es, n).generation
              && At(es, n).tasks[t].key == k && At(es, n).tasks[t].config == At(es, b).config
  {
    hide Step, MayStart, Bumps, NewTask;
    var t := At(es, b).poolCursor;
    StartedGeneration(es, b, k);
    NewTaskIs(At(es, b), es[b].at, k);
    ProbeIdentity(es, b + 1, n, t);
    GenerationGrows(es, b + 1, i);
    GenerationStep(At(es, i), es[i]);
    GenerationGrows(es, i + 1, n);
  }

  lemma StartedGeneration(es: seq<Event>, b: nat, k: Key)
    requires b < |es| && StartsAt(At(es, b), es[b], k)
    ensures var s, s' := At(es, b), At(es, b + 1);
            && s'.poolCursor == s.poolCursor + 1 && s.poolCursor in s'.tasks
            && s'.tasks[s.poolCursor] == NewTask(s, es[b].at, k)
            && s'.tasks[s.poolCursor].generation == s.generation == s'.generation && s'.config == s.config
  {
    StepIs(At(es, b), es[b]);
    BeginTasks(At(es, b), es[b].at, k);
    BeginFrame(At(es, b), es[b].at, k);
    hide Step, BeginStep, Due, StartReason, Matches;
  }

  /** No key of the account may start before the deadline. */
  ghost predicate AccountShut(s: State, account: string, until: Time) {
    forall k: Key, now: Time | k.account == account && now < until :: !MayStart(s, now, k)
  }

  lemma RefusalBlocks(s: State, now: Time, t: nat, value: string, status: string)
    requires t in s.tasks && s.tasks[t].phase.Fetching? && AccountFailure(status)
    ensures var s', task := LandStep(s, now, t, value, Refused(status)), s.tasks[t];
            && s'.accountBlockedUntil == s.accountBlockedUntil[task.key.account :=
                 now + AccountBackoff(status, task.config.probe.quotaBackoffSeconds)]
            && AccountShut(s', task.key.account, now + AccountBackoff(status, task.config.probe.quotaBackoffSeconds))
  {
    hide AccountFailure, AccountBackoff, Due, Matches, Landed, ProxyCoolDown;
  }

  /** The fence does not cover the cool-downs: a probe that began before a configure or shutdown and meets an
      account failure after it blocks every start of its account, for the back-off of its own configuration. */
  lemma CoolDownIsUnfenced(es: seq<Event>, b: nat, i: nat, n: nat, k: Key, value: string, status: string)
    requires b < i < n < |es| && StartsAt(At(es, b), es[b], k) && Bumps(es[i])
    requires es[n].act == Land(At(es, b).poolCursor, value, Refused(status)) && AccountFailure(status)
    requires At(es, b).poolCursor in At(es, n).tasks && At(es, n).tasks[At(es, b).poolCursor].phase.Fetching?
    ensures At(es, n).tasks[At(es, b).poolCursor].generation < At(es, n).generation
    ensures var until := es[n].at + AccountBackoff(status, At(es, b).config.probe.quotaBackoffSeconds);
            && At(es, n + 1).accountBlockedUntil == At(es, n).accountBlockedUntil[k.account := until]
            && AccountShut(At(es, n + 1), k.account, until)
  {
    hide At, Step, MayStart, Bumps, LandStep, AccountFailure, AccountBackoff, AccountShut;
    OldGeneration(es, b, i, n, k);
    AtNext(es, n);
    StepIs(At(es, n), es[n]);
    RefusalBlocks(At(es, n), es[n].at, At(es, b).poolCursor, value, status);
  }

  // ----- the unfenced persist -----

  /** The event promotes the candidate of a probe for k. */
  predicate PromotesAt(s: State, e: Event, k: Key) {
    && e.act.Finish? && Ends(s, e.act.task, e.act.expired)
    && s.tasks[e.act.task].generation == s.generation && s.tasks[e.act.task].key == k
    && Promotes(s, e.at, s.tasks[e.act.task])
  }

  /** f is the promotion after which probe t wants to write the file at path. */
  predicate SavesSince(es: seq<Event>, f: nat, t: nat, k: Key, path: string)
    requires f < |es|
  {
    && es[f].act.Finish? && es[f].act.task == t && PromotesAt(At(es, f), es[f], k)
    && path == At(es, f).config.stateFile != ""
  }

  lemma FinishSaves(s: State, now: Time, t: nat, expired: bool, u: nat)
    ensures var tasks := FinishStep(s, now, t, expired).tasks;
            u in tasks && tasks[u].phase.Saving? ==>
              u in s.tasks && s.tasks[u].key == tasks[u].key &&
              (|| s.tasks[u] == tasks[u]
               || (u == t && PromotesAt(s, Event(now, Finish(t, expired)), tasks[u].key)
                   && tasks[u].phase.path == s.config.stateFile != ""))
  {
    FinishIs(s, now, t, expired);
    if t in s.tasks { FinishedParts(s, now, t); }
    hide Ends, FinishStep, OwnFinish, Promotes, Backoff;
  }

  /** If probe u wants to write after a step, it did before. */
  predicate SavesNoMore(s: State, s': State, u: nat) {
    u in s'.tasks && s'.tasks[u].phase.Saving? ==> u in s.tasks && s.tasks[u] == s'.tasks[u]
  }

  lemma BeginDoesNotSave(s: State, now: Time, k: Key, u: nat)
    ensures SavesNoMore(s, BeginStep(s, now, k), u)
  {
    hide BeginStep, MayStart, NewTask;
    BeginTasks(s, now, k);
    if MayStart(s, now, k) { NewTaskIs(s, now, k); }
  }

  lemma PersistDoesNotSave(s: State, t: nat, u: nat)
    ensures SavesNoMore(s, PersistStep(s, t), u)
  {
    PersistParts(s, t);
    hide PersistStep;
  }

  lemma ResolveDoesNotSave(s: State, t: nat, found: bool, u: nat)
    ensures SavesNoMore(s, ResolveStep(s, t, found), u)
  {
  }

  lemma PickDoesNotSave(s: State, now: Time, t: nat, u: nat)
    ensures SavesNoMore(s, PickStep(s, now, t), u)
  {
    hide EndpointOf, Waiting;
  }

  lemma LandDoesNotSave(s: State, now: Time, t: nat, value: string, verdict: Verdict, u: nat)
    ensures SavesNoMore(s, LandStep(s, now, t, value, verdict), u)
  {
    hide ProbeCandidate, AccountFailure, AccountCoolDown, ProxyCoolDown;
  }

  lemma NoteFailureDoesNotSave(s: State, t: nat, u: nat)
    ensures SavesNoMore(s, NoteFailureStep(s, t), u)
  {
  }

  lemma WriteDoesNotSave(s: State, ok: bool, u: nat)
    ensures SavesNoMore(s, WriteStep(s, ok), u)
  {
  }

  lemma AttemptDoesNotSave(s: State, e: Event, u: nat)
    requires e.act.Begin? || e.act.Resolve? || e.act.Pick? || e.act.Land?
    ensures SavesNoMore(s, Step(s, e), u)
  {
    hide *;
    StepIs(s, e);
    match e.act
    case Begin(k) => BeginDoesNotSave(s, e.at, k, u);
    case Resolve(t, found) => ResolveDoesNotSave(s, t, found, u);
    case Pick(t) => PickDoesNotSave(s, e.at, t, u);
    case Land(t, value, verdict) => LandDoesNotSave(s, e.at, t, value, verdict, u);
  }

  lemma EndDoesNotSave(s: State, e: Event, u: nat)
    requires e.act.Persist? || e.act.NoteFailure? || e.act.Write?
    ensures SavesNoMore(s, Step(s, e), u)
  {
    hide *;
    StepIs(s, e);
    match e.act
    case Persist(t) => PersistDoesNotSave(s, t, u);
    case NoteFailure(t) => NoteFailureDoesNotSave(s, t, u);
    case Write(ok) => WriteDoesNotSave(s, ok, u);
  }

  lemma OthersDoNotSave(s: State, e: Event, u: nat)
    requires !e.act.Finish?
    ensures SavesNoMore(s, Step(s, e), u)
  {
    hide Step;
    if e.act.Begin? || e.act.Resolve? || e.act.Pick? || e.act.Land? {
      AttemptDoesNotSave(s, e, u);
    } else if e.act.Persist? || e.act.NoteFailure? || e.act.Write? {
      EndDoesNotSave(s, e, u);
    } else {
      TasksKept(s, e);
    }
  }

  /** A probe wants to write only after its own promotion, and to the path that was configured then. */
  lemma {:induction false} SavingIsPromoted(es: seq<Event>, n: nat, t: nat)
    requires n <= |es| && t in At(es, n).tasks && At(es, n).tasks[t].phase.Saving?
    ensures exists f: nat :: f < n && SavesSince(es, f, t, At(es, n).tasks[t].key, At(es, n).tasks[t].phase.path)
  {
    hide Step, PromotesAt, FinishStep;
    assert n > 0;
    var s, e := At(es, n - 1), es[n - 1];
    var task := At(es, n).tasks[t];
    if e.act.Finish? {
      StepIs(s, e);
      FinishSaves(s, e.at, e.act.task, e.act.expired, t);
      if s.tasks[t] == task {
        SavingIsPromoted(es, n - 1, t);
      } else {
        assert SavesSince(es, n - 1, t, task.key, task.phase.path);
      }
    } else {
      OthersDoNotSave(s, e, t);
      SavingIsPromoted(es, n - 1, t);
    }
  }

  /** The fence does not cover the persist of a promoting probe either. A probe from before a configure or
      shutdown takes the persist lock exactly if it had promoted, with the path that is in force now, and the
      lock is free; and then it takes a snapshot of the cache of this moment. */
  lemma OldProbePersists(es: seq<Event>, b: nat, i: nat, n: nat, k: Key)
    requires b < i < n < |es| && StartsAt(At(es, b), es[b], k) && Bumps(es[i])
             && es[n].act == Persist(At(es, b).poolCursor)
    ensures var t, s, s' := At(es, b).poolCursor, At(es, n), At(es, n + 1);
            && s'.disk == s.disk
            && s'.writer == (if Persists(s, t) && s.tasks[t].phase.path == s.config.stateFile
                             then Some(Writer(s.config.stateFile, s.current, Some(t))) else s.writer)
            && (Persists(s, t) ==> exists f: nat :: b < f < i && SavesSince(es, f, t, k, s.tasks[t].phase.path))
  {
    hide At, Step, MayStart, Bumps, PersistStep, PromotesAt;
    var t := At(es, b).poolCursor;
    AtNext(es, n);
    StepIs(At(es, n), es[n]);
    PersistParts(At(es, n), t);
    PersistFrame(At(es, n), t);
    OldGeneration(es, b, i, n, k);
    if Persists(At(es, n), t) {
      SavingIsPromoted(es, n, t);
      var f: nat :| f < n && SavesSince(es, f, t, k, At(es, n).tasks[t].phase.path);
      PromotedInItsTime(es, b, i, f, k);
    }
  }

  /** A probe promotes after its start and before its generation is over. */
  lemma PromotedInItsTime(es: seq<Event>, b: nat, i: nat, f: nat, k: Key)
    requires b < i < |es| && f < |es| && StartsAt(At(es, b), es[b], k) && Bumps(es[i])
    requires es[f].act.Finish? && es[f].act.task == At(es, b).poolCursor && PromotesAt(At(es, f), es[f], k)
    ensures b < f < i
  {
    hide At, Step, MayStart, Inv, Promotes, MayFinish;
    if f <= b {
      Reachable(es, f);
      CursorsBelow(At(es, f));
      CursorGrows(es, f, b);
      assert false;
    }
    if f > i {
      OldGeneration(es, b, i, f, k);
    }
    if f == i {
      NoBump(es[f]);
    }
  }

  lemma NoBump(e: Event)
    requires e.act.Finish?
    ensures !Bumps(e)
  {
  }

  // ----- the origin of a probe -----

  /** b is the start of probe t, which after n events is still there. */
  predicate LaunchedBy(es: seq<Event>, b: nat, n: nat, t: nat)
    requires n <= |es|
  {
    && b < n && t in At(es, n).tasks && At(es, b).poolCursor == t && StartsAt(At(es, b), es[b], At(es, n).tasks[t].key)
    && At(es, n).tasks[t].generation == At(es, b).generation && At(es, n).tasks[t].config == At(es, b).config
  }

  predicate SameOrigin(a: Task, b: Task) {
    b.key == a.key && b.generation == a.generation && b.config == a.config
  }

  lemma NewProbe(s: State, e: Event, t: nat)
    requires t in Step(s, e).tasks && (t in s.tasks ==> t < s.poolCursor)
    ensures var task := Step(s, e).tasks[t];
            || (t in s.tasks && SameOrigin(s.tasks[t], task))
            || (t == s.poolCursor && StartsAt(s, e, task.key) && task.generation == s.generation
                && task.config == s.config)
  {
    hide Step, MayStart, BeginStep, NewTask;
    if t in s.tasks {
      TaskStep(s, e, t);
    } else if e.act.Begin? {
      StepIs(s, e);
      BeginTasks(s, e.at, e.act.key);
      if MayStart(s, e.at, e.act.key) { NewTaskIs(s, e.at, e.act.key); }
    } else {
      ProbesMove(s, e);
    }
  }

  lemma {:induction false} ProbeIsLaunched(es: seq<Event>, n: nat, t: nat)
    requires n <= |es| && t in At(es, n).tasks
    ensures exists b: nat :: LaunchedBy(es, b, n, t)
  {
    hide Step, MayStart, Inv;
    assert n > 0;
    Reachable(es, n - 1);
    CursorsBelow(At(es, n - 1));
    NewProbe(At(es, n - 1), es[n - 1], t);
    if t in At(es, n - 1).tasks {
      ProbeIsLaunched(es, n - 1, t);
      var b: nat :| LaunchedBy(es, b, n - 1, t);
      assert LaunchedBy(es, b, n, t);
    } else {
      assert LaunchedBy(es, n - 1, n, t);
    }
  }
}
