/** Which steps can touch which part of the state. */
module Frames {
  import opened Wrappers
  import opened Policy
  import opened Machine
  import Sse

  predicate Reconfigures(e: Event) {
    e.act.Configure? && Accepts(e.act.raw, e.act.file)
  }

  /** Bumps the generation. */
  predicate Bumps(e: Event) {
    Reconfigures(e) || e.act.Shutdown?
  }

  lemma StartedFrame(s: State, now: Time, k: Key)
    requires CredentialFor(s.config, k.account).Some?
    ensures var s' := Started(s, now, k);
            s' == s.(lastProbe := s'.lastProbe, probeReasons := s'.probeReasons, probing := s'.probing,
                     poolCursor := s'.poolCursor, tasks := s'.tasks)
  {
    hide NewTask, StartReason, CredentialFor;
  }

  lemma BeginFrame(s: State, now: Time, k: Key)
    ensures var s' := BeginStep(s, now, k);
            s' == s.(lastProbe := s'.lastProbe, probeReasons := s'.probeReasons, probing := s'.probing,
                     poolCursor := s'.poolCursor, tasks := s'.tasks)
  {
    if MayStart(s, now, k) {
      StartedFrame(s, now, k);
    }
    hide MayStart, Started;
  }

  lemma ResolveFrame(s: State, t: nat, found: bool)
    ensures var s' := ResolveStep(s, t, found);
            s' == s.(tasks := s'.tasks)
  {
    hide Resolved;
  }

  lemma PickFrame(s: State, now: Time, t: nat)
    ensures var s' := PickStep(s, now, t);
            s' == s.(tasks := s'.tasks)
  {
    hide MayPick, Picked, EndpointOf;
  }

  lemma LandFrame(s: State, now: Time, t: nat, value: string, verdict: Verdict)
    ensures var s' := LandStep(s, now, t, value, verdict);
            s' == s.(tasks := s'.tasks, accountBlockedUntil := s'.accountBlockedUntil,
                     proxyBlockedUntil := s'.proxyBlockedUntil)
  {
    hide Landed, AccountCoolDown, ProxyCoolDown;
  }

  lemma OwnFinishFrame(s: State, now: Time, t: nat)
    requires t in s.tasks
    ensures var s' := OwnFinish(s, now, t);
            s' == s.(probing := s'.probing, probeResults := s'.probeResults, blockedUntil := s'.blockedUntil,
                     history := s'.history, tasks := s'.tasks, current := s'.current,
                     refreshRequests := s'.refreshRequests, accountBlockedUntil := s'.accountBlockedUntil,
                     forceInject := s'.forceInject)
  {
    hide Promotes, Backoff, EndHistory;
  }

  lemma FinishedParts(s: State, now: Time, t: nat)
    requires t in s.tasks
    ensures var s', task, promoted := OwnFinish(s, now, t), s.tasks[t], Promotes(s, now, s.tasks[t]);
            && s'.probing == s.probing - {task.key}
            && s'.tasks == (if promoted && s.config.stateFile != ""
                            then s.tasks[t := task.(phase := Saving(s.config.stateFile))] else Drop(s.tasks, t))
            && s'.current == (if promoted then s.current[task.key := task.candidate.value] else s.current)
            && s'.refreshRequests == (if promoted then Drop(s.refreshRequests, task.key) else s.refreshRequests)
            && s'.blockedUntil == (if promoted then Drop(Backoff(s.blockedUntil, now, task), task.key)
                                   else Backoff(s.blockedUntil, now, task))
            && s'.forceInject == (if promoted then s.forceInject + {task.key} else s.forceInject)
            && s'.accountBlockedUntil == (if promoted then Drop(s.accountBlockedUntil, task.key.account)
                                          else s.accountBlockedUntil)
            && s'.probeResults == s.probeResults[task.key := task.outcome]
            && s'.history == EndHistory(s.history, now, task, promoted)
  {
    hide Backoff, EndHistory, Newer, Fresh;
  }

  lemma PersistFrame(s: State, t: nat)
    ensures var s' := PersistStep(s, t);
            s' == s.(tasks := s'.tasks, writer := s'.writer)
  {
    hide Persists;
  }

  lemma PersistParts(s: State, t: nat)
    ensures var s', inForce := PersistStep(s, t), Persists(s, t) && s.tasks[t].phase.path == s.config.stateFile;
            && s'.writer == (if inForce then Some(Writer(s.config.stateFile, s.current, Some(t))) else s.writer)
            && s'.tasks == (if inForce then s.tasks[t := s.tasks[t].(phase := Writing)]
                            else if Persists(s, t) then Drop(s.tasks, t) else s.tasks)
  {
  }

  lemma NoteFailureFrame(s: State, t: nat)
    ensures var s' := NoteFailureStep(s, t);
            s' == s.(tasks := s'.tasks, probeResults := s'.probeResults)
  {
  }

  lemma NoteFailureParts(s: State, t: nat)
    ensures var s', ends := NoteFailureStep(s, t), t in s.tasks && s.tasks[t].phase == Unsaved;
            && s'.tasks == (if ends then Drop(s.tasks, t) else s.tasks)
            && s'.probeResults == (if ends then s.probeResults[s.tasks[t].key := PersistFailed] else s.probeResults)
  {
  }

  lemma DetachFrame(s: State, id: string)
    ensures var s' := DetachStep(s, id);
            s' == s.(refreshRequests := s'.refreshRequests, requests := s'.requests,
                     candidates := s'.candidates)
  {
    hide Requeued;
  }

  lemma BindFrame(s: State, id: string, account: string, model: string, requested: string)
    ensures var s' := BindStep(s, id, account, model, requested);
            s' == s.(requests := s'.requests, candidates := s'.candidates)
  {
    hide Binds;
  }

  lemma CaptureFrame(s: State, now: Time, id: string, header: string)
    ensures var s' := CaptureStep(s, now, id, header);
            s' == s.(candidates := s'.candidates)
  {
    hide Captured;
  }

  lemma ObserveFrame(s: State, id: string, chunk: string, json: Sse.Json, classify: Classifier)
    ensures var s' := ObserveStep(s, id, chunk, json, classify);
            s' == s.(refreshRequests := s'.refreshRequests, requests := s'.requests,
                     candidates := s'.candidates)
  {
    hide RequeuedAll, FailuresIn, Sse.Feed;
  }

  lemma ObserveParts(s: State, id: string, chunk: string, json: Sse.Json, classify: Classifier)
    ensures var s' := ObserveStep(s, id, chunk, json, classify);
            && (id !in s.requests ==> s' == s)
            && (id in s.requests ==>
                  s'.requests == s.requests[id := s.requests[id].(buffer :=
                                              Sse.Feed(json, s.requests[id].buffer, chunk).carry)])
  {
    hide RequeuedAll, FailuresIn, Sse.Feed;
  }

  lemma CompleteFrame(s: State, now: Time, id: string, outcome: Completion, code: int, error: string)
    ensures var s' := CompleteStep(s, now, id, outcome, code, error);
            s' == s.(forceInject := s'.forceInject, candidates := s'.candidates, requests := s'.requests,
                     current := s'.current, refreshRequests := s'.refreshRequests)
  {
    hide CompletionPromotes, CompletionQueue;
  }

  lemma RefreshFrame(s: State, now: Time, sel: Selector)
    ensures var s' := RefreshStep(s, now, sel);
            s' == s.(refreshRequests := s'.refreshRequests, probeReasons := s'.probeReasons,
                     history := s'.history)
  {
    hide Queued, Mark;
  }

  lemma ClearFrame(s: State, now: Time, scope: Scope, sel: Selector)
    ensures var s' := ClearStep(s, now, scope, sel);
            s' == s.(current := s'.current, refreshRequests := s'.refreshRequests,
                     probeResults := s'.probeResults, probeReasons := s'.probeReasons,
                     lastProbe := s'.lastProbe, blockedUntil := s'.blockedUntil, history := s'.history)
  {
    hide Removed, Forgotten;
  }

  lemma ClearParts(s: State, now: Time, scope: Scope, sel: Selector)
    ensures var s', gone := ClearStep(s, now, scope, sel), Removed(s, now, scope, sel);
            var idle := Forgotten(s, s.current - gone, sel);
            && s'.current == s.current - gone && s'.refreshRequests == s.refreshRequests - gone - idle
            && s'.probeResults == s.probeResults - idle && s'.probeReasons == s.probeReasons - idle
            && s'.lastProbe == s.lastProbe - idle && s'.blockedUntil == s.blockedUntil - idle
            && s'.history == if gone == {} then s.history else AppendHistory(s.history, ClearedBy(now, scope))
  {
    hide Removed, Forgotten, AppendHistory;
  }

  lemma SnapshotFrame(s: State, path: string)
    ensures var s' := SnapshotStep(s, path);
            s' == s.(writer := s'.writer)
  {
  }

  lemma WriteFrame(s: State, ok: bool)
    ensures var s' := WriteStep(s, ok);
            s' == s.(writer := s'.writer, disk := s'.disk, tasks := s'.tasks)
  {
    hide Written;
  }

  lemma WriteParts(s: State, ok: bool)
    ensures var s' := WriteStep(s, ok);
            && s'.writer == None && s'.tasks == Written(s.tasks, s.writer, ok)
            && s'.disk == if s.writer.Some? && ok then s.disk[s.writer.value.path := s.writer.value.snapshot]
                          else s.disk
  {
    hide Written;
  }

  lemma FencedFrame(s: State, now: Time, t: nat)
    requires t in s.tasks
    ensures s.tasks[t].generation != s.generation ==> FencedFinish(s, now, t) == s.(tasks := Drop(s.tasks, t))
    ensures s.tasks[t].generation == s.generation ==> FencedFinish(s, now, t) == OwnFinish(s, now, t)
  {
    hide OwnFinish;
  }

  /** The three ways of a last section: nothing yet, only the goroutine ends, or the section runs. */
  lemma FinishIs(s: State, now: Time, t: nat, expired: bool)
    ensures var s' := FinishStep(s, now, t, expired);
            && (!Ends(s, t, expired) ==> s' == s)
            && (Ends(s, t, expired) ==> t in s.tasks)
            && (Ends(s, t, expired) && s.tasks[t].generation != s.generation ==> s' == s.(tasks := Drop(s.tasks, t)))
            && (Ends(s, t, expired) && s.tasks[t].generation == s.generation ==> s' == OwnFinish(s, now, t))
  {
    if Ends(s, t, expired) {
      FencedFrame(s, now, t);
    }
    hide MayFinish, OwnFinish, FencedFinish;
  }

  lemma NothingEnds(s: State, now: Time, t: nat, expired: bool)
    requires !Ends(s, t, expired)
    ensures FinishStep(s, now, t, expired) == s
  {
    hide MayFinish, FencedFinish;
  }

  lemma FinishFrame(s: State, now: Time, t: nat, expired: bool)
    ensures var s' := FinishStep(s, now, t, expired);
            s' == s.(probing := s'.probing, probeResults := s'.probeResults, blockedUntil := s'.blockedUntil,
                     history := s'.history, tasks := s'.tasks, current := s'.current,
                     refreshRequests := s'.refreshRequests, accountBlockedUntil := s'.accountBlockedUntil,
                     forceInject := s'.forceInject)
  {
    if Ends(s, t, expired) {
      FencedFrame(s, now, t);
      OwnFinishFrame(s, now, t);
    }
    hide Ends, FencedFinish, OwnFinish;
  }

  lemma ConfiguredParts(s: State, raw: RawConfig, file: FileView)
    requires Accepts(raw, file)
    ensures var s' := ConfigureStep(s, raw, file);
            && s'.config == Prepare(raw).value && s'.generation == s.generation + 1
            && s'.current == Configured(Prepare(raw).value, file, s.current)
            && s'.requests == map[] && s'.candidates == map[] && s'.forceInject == {} && s'.tasks == s.tasks
            && s'.writer == s.writer && s'.disk == s.disk
            && s'.accepting == Prepare(raw).value.enabled && s'.live && s'.probing == {} && s'.lastProbe == map[]
            && s'.probeResults == map[] && s'.probeReasons == map[] && s'.refreshRequests == map[]
            && s'.blockedUntil == map[]
            && s'.accountBlockedUntil == map[] && s'.proxyBlockedUntil == map[]
            && s'.history == s.history && s'.poolCursor == s.poolCursor
  {
    hide Prepare, Configured;
  }

  lemma ConfigureFrame(s: State, raw: RawConfig, file: FileView)
    ensures var s' := ConfigureStep(s, raw, file);
            s' == s.(accepting := s'.accepting, config := s'.config, live := s'.live, generation := s'.generation,
                     current := s'.current, requests := s'.requests, candidates := s'.candidates, probing := s'.probing,
                     lastProbe := s'.lastProbe, probeResults := s'.probeResults, probeReasons := s'.probeReasons,
                     refreshRequests := s'.refreshRequests, blockedUntil := s'.blockedUntil,
                     accountBlockedUntil := s'.accountBlockedUntil, proxyBlockedUntil := s'.proxyBlockedUntil,
                     forceInject := s'.forceInject)
  {
    if Accepts(raw, file) {
      ConfiguredParts(s, raw, file);
    } else {
      RefusedFrame(s, raw, file);
    }
    hide ConfigureStep, Accepts, Prepare, Configured;
  }

  lemma RefusedFrame(s: State, raw: RawConfig, file: FileView)
    requires !Accepts(raw, file)
    ensures ConfigureStep(s, raw, file) == s
  {
    hide Accepts;
  }

  lemma QuiesceFrame(s: State)
    ensures var s' := QuiesceStep(s);
            s' == s.(accepting := s'.accepting, live := s'.live)
  {
  }

  lemma ShutdownFrame(s: State)
    ensures var s' := ShutdownStep(s);
            s' == s.(accepting := s'.accepting, live := s'.live, generation := s'.generation, requests := s'.requests,
                     candidates := s'.candidates)
  {
  }

  lemma StepIs(s: State, e: Event)
    ensures var s' := Step(s, e);
            match e.act
            case Begin(k) => s' == BeginStep(s, e.at, k)
            case Resolve(t, found) => s' == ResolveStep(s, t, found)
            case Pick(t) => s' == PickStep(s, e.at, t)
            case Land(t, value, verdict) => s' == LandStep(s, e.at, t, value, verdict)
            case Finish(t, expired) => s' == FinishStep(s, e.at, t, expired)
            case Persist(t) => s' == PersistStep(s, t)
            case NoteFailure(t) => s' == NoteFailureStep(s, t)
            case Detach(id) => s' == DetachStep(s, id)
            case Bind(id, account, model, requested) => s' == BindStep(s, id, account, model, requested)
            case Capture(id, header) => s' == CaptureStep(s, e.at, id, header)
            case Observe(id, chunk, json, classify) => s' == ObserveStep(s, id, chunk, json, classify)
            case Complete(id, outcome, code, error) => s' == CompleteStep(s, e.at, id, outcome, code, error)
            case Refresh(sel) => s' == RefreshStep(s, e.at, sel)
            case Clear(scope, sel) => s' == ClearStep(s, e.at, scope, sel)
            case Configure(raw, file) => s' == ConfigureStep(s, raw, file)
            case Quiesce => s' == QuiesceStep(s)
            case Shutdown => s' == ShutdownStep(s)
            case Snapshot(path) => s' == SnapshotStep(s, path)
            case Write(ok) => s' == WriteStep(s, ok)
  {
    hide BeginStep, ResolveStep, PickStep, LandStep, FinishStep, PersistStep, NoteFailureStep, DetachStep, BindStep,
      CaptureStep, ObserveStep, CompleteStep, RefreshStep, ClearStep, ConfigureStep, QuiesceStep, ShutdownStep,
      SnapshotStep, WriteStep;
  }

  predicate OfProbe(a: Act) {
    a.Begin? || a.Resolve? || a.Pick? || a.Land? || a.Finish? || a.Persist? || a.NoteFailure?
  }

  predicate OfHook(a: Act) {
    a.Detach? || a.Bind? || a.Capture? || a.Observe? || a.Complete?
  }

  /** Which events can touch which field. */
  predicate Footprint(s: State, s': State, e: Event) {
    var a := e.act;
    && (a.Finish? || a.Complete? || a.Clear? || Reconfigures(e) || s'.current == s.current)
    && (a.Finish? || a.Detach? || a.Observe? || a.Complete? || a.Refresh? || a.Clear? || Reconfigures(e)
        || s'.refreshRequests == s.refreshRequests)
    && (a.Begin? || a.Clear? || Reconfigures(e) || s'.lastProbe == s.lastProbe)
    && (a.Finish? || a.Clear? || Reconfigures(e) || s'.blockedUntil == s.blockedUntil)
    && (a.Finish? || a.Complete? || Reconfigures(e) || s'.forceInject == s.forceInject)
    && (a.Finish? || a.Refresh? || a.Clear? || s'.history == s.history)
    && (a.Begin? || a.Finish? || Reconfigures(e) || s'.probing == s.probing)
    && (OfProbe(a) || a.Write? || s'.tasks == s.tasks)
    && (a.Begin? || s'.poolCursor == s.poolCursor)
    && (Bumps(e) || s'.generation == s.generation)
    && (Reconfigures(e) || s'.config == s.config)
    && (Reconfigures(e) || a.Quiesce? || a.Shutdown? || (s'.live == s.live && s'.accepting == s.accepting))
    && (OfHook(a) || Bumps(e) || (s'.requests == s.requests && s'.candidates == s.candidates))
    && (a.Snapshot? || a.Persist? || a.Write? || s'.writer == s.writer)
    && (a.Write? || s'.disk == s.disk)
    && (a.Finish? || a.NoteFailure? || a.Clear? || Reconfigures(e) || s'.probeResults == s.probeResults)
    && (a.Begin? || a.Refresh? || a.Clear? || Reconfigures(e) || s'.probeReasons == s.probeReasons)
    && (a.Land? || a.Finish? || Reconfigures(e) || s'.accountBlockedUntil == s.accountBlockedUntil)
    && (a.Land? || Reconfigures(e) || s'.proxyBlockedUntil == s.proxyBlockedUntil)
  }

  lemma BeginPrint(s: State, e: Event)
    requires e.act.Begin?
    ensures Footprint(s, BeginStep(s, e.at, e.act.key), e)
  {
    BeginFrame(s, e.at, e.act.key);
    hide BeginStep, Accepts;
  }

  lemma ResolvePrint(s: State, e: Event)
    requires e.act.Resolve?
    ensures Footprint(s, ResolveStep(s, e.act.task, e.act.found), e)
  {
    ResolveFrame(s, e.act.task, e.act.found);
    hide ResolveStep, Accepts;
  }

  lemma PickPrint(s: State, e: Event)
    requires e.act.Pick?
    ensures Footprint(s, PickStep(s, e.at, e.act.task), e)
  {
    PickFrame(s, e.at, e.act.task);
    hide PickStep, Accepts;
  }

  lemma LandPrint(s: State, e: Event)
    requires e.act.Land?
    ensures Footprint(s, LandStep(s, e.at, e.act.task, e.act.value, e.act.verdict), e)
  {
    LandFrame(s, e.at, e.act.task, e.act.value, e.act.verdict);
    hide LandStep, Accepts;
  }

  lemma FinishPrint(s: State, e: Event)
    requires e.act.Finish?
    ensures Footprint(s, FinishStep(s, e.at, e.act.task, e.act.expired), e)
  {
    FinishFrame(s, e.at, e.act.task, e.act.expired);
    hide FinishStep, Accepts;
  }

  lemma PersistPrint(s: State, e: Event)
    requires e.act.Persist?
    ensures Footprint(s, PersistStep(s, e.act.task), e)
  {
    PersistFrame(s, e.act.task);
    hide PersistStep, Accepts;
  }

  lemma NoteFailurePrint(s: State, e: Event)
    requires e.act.NoteFailure?
    ensures Footprint(s, NoteFailureStep(s, e.act.task), e)
  {
    NoteFailureFrame(s, e.act.task);
    hide NoteFailureStep, Accepts;
  }

  lemma DetachPrint(s: State, e: Event)
    requires e.act.Detach?
    ensures Footprint(s, DetachStep(s, e.act.id), e)
  {
    DetachFrame(s, e.act.id);
    hide DetachStep, Accepts;
  }

  lemma BindPrint(s: State, e: Event)
    requires e.act.Bind?
    ensures Footprint(s, BindStep(s, e.act.id, e.act.account, e.act.model, e.act.requested), e)
  {
    BindFrame(s, e.act.id, e.act.account, e.act.model, e.act.requested);
    hide BindStep, Accepts;
  }

  lemma CapturePrint(s: State, e: Event)
    requires e.act.Capture?
    ensures Footprint(s, CaptureStep(s, e.at, e.act.id, e.act.header), e)
  {
    CaptureFrame(s, e.at, e.act.id, e.act.header);
    hide CaptureStep, Accepts;
  }

  lemma ObservePrint(s: State, e: Event)
    requires e.act.Observe?
    ensures Footprint(s, ObserveStep(s, e.act.id, e.act.chunk, e.act.json, e.act.classify), e)
  {
    ObserveFrame(s, e.act.id, e.act.chunk, e.act.json, e.act.classify);
    hide ObserveStep, Accepts;
  }

  lemma CompletePrint(s: State, e: Event)
    requires e.act.Complete?
    ensures Footprint(s, CompleteStep(s, e.at, e.act.id, e.act.outcome, e.act.code, e.act.error), e)
  {
    CompleteFrame(s, e.at, e.act.id, e.act.outcome, e.act.code, e.act.error);
    hide CompleteStep, Accepts;
  }

  lemma RefreshPrint(s: State, e: Event)
    requires e.act.Refresh?
    ensures Footprint(s, RefreshStep(s, e.at, e.act.sel), e)
  {
    RefreshFrame(s, e.at, e.act.sel);
    hide RefreshStep, Accepts;
  }

  lemma ClearPrint(s: State, e: Event)
    requires e.act.Clear?
    ensures Footprint(s, ClearStep(s, e.at, e.act.scope, e.act.sel), e)
  {
    ClearFrame(s, e.at, e.act.scope, e.act.sel);
    hide ClearStep, Accepts;
  }

  lemma ConfigurePrint(s: State, e: Event)
    requires e.act.Configure?
    ensures Footprint(s, ConfigureStep(s, e.act.raw, e.act.file), e)
  {
    if Reconfigures(e) {
      ConfiguredParts(s, e.act.raw, e.act.file);
    } else {
      RefusedFrame(s, e.act.raw, e.act.file);
    }
    hide ConfigureStep, Accepts, Prepare, Configured;
  }

  lemma QuiescePrint(s: State, e: Event)
    requires e.act.Quiesce?
    ensures Footprint(s, QuiesceStep(s), e)
  {
    QuiesceFrame(s);
    hide QuiesceStep, Accepts;
  }

  lemma ShutdownPrint(s: State, e: Event)
    requires e.act.Shutdown?
    ensures Footprint(s, ShutdownStep(s), e)
  {
    ShutdownFrame(s);
    hide ShutdownStep, Accepts;
  }

  lemma SnapshotPrint(s: State, e: Event)
    requires e.act.Snapshot?
    ensures Footprint(s, SnapshotStep(s, e.act.path), e)
  {
    SnapshotFrame(s, e.act.path);
    hide SnapshotStep, Accepts;
  }

  lemma WritePrint(s: State, e: Event)
    requires e.act.Write?
    ensures Footprint(s, WriteStep(s, e.act.ok), e)
  {
    WriteFrame(s, e.act.ok);
    hide WriteStep, Accepts;
  }

  lemma StepFootprint(s: State, e: Event)
    ensures Footprint(s, Step(s, e), e)
  {
    StepIs(s, e);
    hide Footprint, Step, BeginStep, ResolveStep, PickStep, LandStep, FinishStep, PersistStep, NoteFailureStep,
      DetachStep, BindStep, CaptureStep, ObserveStep, CompleteStep, RefreshStep, ClearStep, ConfigureStep,
      QuiesceStep, ShutdownStep, SnapshotStep, WriteStep;
    match e.act
    case Begin(_) => BeginPrint(s, e);
    case Resolve(_, _) => ResolvePrint(s, e);
    case Pick(_) => PickPrint(s, e);
    case Land(_, _, _) => LandPrint(s, e);
    case Finish(_, _) => FinishPrint(s, e);
    case Persist(_) => PersistPrint(s, e);
    case NoteFailure(_) => NoteFailurePrint(s, e);
    case Detach(_) => DetachPrint(s, e);
    case Bind(_, _, _, _) => BindPrint(s, e);
    case Capture(_, _) => CapturePrint(s, e);
    case Observe(_, _, _, _) => ObservePrint(s, e);
    case Complete(_, _, _, _) => CompletePrint(s, e);
    case Refresh(_) => RefreshPrint(s, e);
    case Clear(_, _) => ClearPrint(s, e);
    case Configure(_, _) => ConfigurePrint(s, e);
    case Quiesce => QuiescePrint(s, e);
    case Shutdown => ShutdownPrint(s, e);
    case Snapshot(_) => SnapshotPrint(s, e);
    case Write(_) => WritePrint(s, e);
  }

  // ----- single fields -----

  lemma CurrentKept(s: State, e: Event)
    requires !e.act.Finish? && !e.act.Complete? && !e.act.Clear? && !Reconfigures(e)
    ensures Step(s, e).current == s.current
  {
    hide Step, Reconfigures;
    StepFootprint(s, e);
  }

  lemma TasksKept(s: State, e: Event)
    requires !OfProbe(e.act) && !e.act.Write?
    ensures Step(s, e).tasks == s.tasks
  {
    hide Step;
    StepFootprint(s, e);
  }

  lemma WriterKept(s: State, e: Event)
    requires !e.act.Persist? && !e.act.Snapshot? && !e.act.Write?
    ensures Step(s, e).writer == s.writer
  {
    hide Step;
    StepFootprint(s, e);
  }

  lemma DiskKept(s: State, e: Event)
    requires !e.act.Write?
    ensures Step(s, e).disk == s.disk
  {
    hide Step;
    StepFootprint(s, e);
  }
}
