/** Where an injected value comes from, and what a clear cannot take away. */
module Injection {
  import opened Text
  import opened Wrappers
  import opened Policy
  import opened Machine
  import opened Frames
  import opened Invariant
  import opened Probes
  import Fernet
  import Rates

  // ----- the origin of a candidate -----

  /** The fetch of probe t that delivered the value. */
  predicate Delivers(s: State, e: Event, t: nat, value: string) {
    e.act == Land(t, value, Delivered) && t in s.tasks && s.tasks[t].phase.Fetching?
  }

  /** The fetch of probe t that delivered st, and the probe keeps it. */
  predicate AcceptsAt(s: State, e: Event, t: nat, st: Stored) {
    Delivers(s, e, t, st.value) && ProbeCandidate(s.tasks[t], st.value) == Some(st)
  }

  lemma LandDelivers(s: State, now: Time, u: nat, value: string, verdict: Verdict, t: nat)
    ensures var tasks := LandStep(s, now, u, value, verdict).tasks;
            t in tasks && tasks[t].candidate.Some? ==>
              t in s.tasks &&
              (|| s.tasks[t].candidate == tasks[t].candidate
               || AcceptsAt(s, Event(now, Land(u, value, verdict)), t, tasks[t].candidate.value))
  {
    hide AccountFailure, AccountCoolDown, ProxyCoolDown, Fernet.Parse, NormalBlocks, Fresh;
  }

  lemma OthersDeliverNothing(s: State, e: Event, t: nat)
    requires !e.act.Land? && t in Step(s, e).tasks && Step(s, e).tasks[t].candidate.Some?
    ensures t in s.tasks && s.tasks[t].candidate == Step(s, e).tasks[t].candidate
  {
    hide Step, MayStart, BeginStep, NewTask, GoesOn;
    if e.act.Begin? {
      StepIs(s, e);
      BeginTasks(s, e.at, e.act.key);
      if MayStart(s, e.at, e.act.key) { NewTaskIs(s, e.at, e.act.key); }
    } else {
      ProbesMove(s, e);
    }
  }

  lemma {:induction false} CandidateIsDelivered(es: seq<Event>, n: nat, t: nat)
    requires n <= |es| && t in At(es, n).tasks && At(es, n).tasks[t].candidate.Some?
    ensures exists l: nat :: l < n && AcceptsAt(At(es, l), es[l], t, At(es, n).tasks[t].candidate.value)
  {
    hide Step, AcceptsAt, LandStep;
    assert n > 0;
    var s, e := At(es, n - 1), es[n - 1];
    if e.act.Land? {
      StepIs(s, e);
      LandDelivers(s, e.at, e.act.task, e.act.value, e.act.verdict, t);
    } else {
      OthersDeliverNothing(s, e, t);
    }
    if !AcceptsAt(s, e, t, At(es, n).tasks[t].candidate.value) {
      CandidateIsDelivered(es, n - 1, t);
    }
  }

  // ----- the first acceptable delivery -----

  lemma AcceptedIsKept(s: State, e: Event, t: nat, st: Stored)
    requires AcceptsAt(s, e, t, st)
    ensures t in Step(s, e).tasks && Step(s, e).tasks[t].candidate == Some(st)
  {
    hide Step, AccountCoolDown, ProxyCoolDown, ProbeCandidate;
    StepIs(s, e);
  }

  lemma KeptIsLeaving(s: State, t: nat)
    requires Inv(s) && t in s.tasks && s.tasks[t].candidate.Some?
    ensures s.tasks[t].phase == Leaving || Concluded(s.tasks[t].phase)
  {
    TaskAt(s, t);
    hide Inv, ConfigOk, CountersOk, Genuine, NormalBlocks, CredentialFor;
  }

  lemma LandSpares(s: State, now: Time, u: nat, value: string, verdict: Verdict, t: nat)
    requires t in s.tasks && !s.tasks[t].phase.Fetching?
    ensures var s' := LandStep(s, now, u, value, verdict); t in s'.tasks && s'.tasks[t] == s.tasks[t]
  {
    hide Landed, AccountCoolDown, ProxyCoolDown;
  }

  /** A kept state is never exchanged for another. */
  lemma CandidateStep(s: State, e: Event, t: nat, st: Stored)
    requires Inv(s) && t in s.tasks && s.tasks[t].candidate == Some(st) && t in Step(s, e).tasks
    ensures Step(s, e).tasks[t].candidate == Some(st)
  {
    hide Step, Inv, LandStep, MayStart, BeginStep, NewTask, GoesOn;
    if e.act.Begin? {
      StepIs(s, e);
      CursorsBelow(s);
      BeginTasks(s, e.at, e.act.key);
    } else if e.act.Land? {
      StepIs(s, e);
      KeptIsLeaving(s, t);
      LandSpares(s, e.at, e.act.task, e.act.value, e.act.verdict, t);
    } else {
      ProbesMove(s, e);
    }
  }

  lemma {:induction false} CandidateStays(es: seq<Event>, j: nat, n: nat, t: nat, st: Stored)
    requires j <= n <= |es| && t in At(es, j).tasks && At(es, j).tasks[t].candidate == Some(st)
    requires t in At(es, n).tasks
    ensures At(es, n).tasks[t].candidate == Some(st)
  {
    hide At, Step, Inv;
    if j < n {
      AtNext(es, n - 1);
      Reachable(es, j);
      CursorsBelow(At(es, j));
      ProbeIdentity(es, j, n - 1, t);
      TaskStep(At(es, n - 1), es[n - 1], t);
      CandidateStays(es, j, n - 1, t, st);
      Reachable(es, n - 1);
      CandidateStep(At(es, n - 1), es[n - 1], t, st);
    }
  }

  lemma LeavingFetchesNothing(s: State, e: Event, t: nat)
    requires t in s.tasks && s.tasks[t].phase != Looping && !s.tasks[t].phase.Fetching?
    ensures !Rates.Fetches(s, e, t) && forall value :: !Delivers(s, e, t, value)
  {
    hide EndpointOf, Waiting;
  }

  lemma NoFetchWithCandidate(s: State, e: Event, t: nat)
    requires Inv(s) && t in s.tasks && s.tasks[t].candidate.Some?
    ensures !Rates.Fetches(s, e, t) && forall value :: !Delivers(s, e, t, value)
  {
    hide Inv, Rates.Fetches, Delivers;
    KeptIsLeaving(s, t);
    LeavingFetchesNothing(s, e, t);
  }

  /** In every run the first acceptable delivery decides: the probe keeps it as long as it lasts, and goes
      through no proxy and gets no delivery after it. */
  lemma FirstDeliveryWins(es: seq<Event>, l: nat, n: nat, t: nat, st: Stored)
    requires l < n <= |es| && AcceptsAt(At(es, l), es[l], t, st)
    ensures t in At(es, n).tasks ==> At(es, n).tasks[t].candidate == Some(st)
    ensures n < |es| ==> !Rates.Fetches(At(es, n), es[n], t) && forall value :: !Delivers(At(es, n), es[n], t, value)
  {
    hide At, Step, Inv, AcceptsAt;
    AtNext(es, l);
    AcceptedIsKept(At(es, l), es[l], t, st);
    if t in At(es, n).tasks {
      CandidateStays(es, l + 1, n, t, st);
      if n < |es| {
        Reachable(es, n);
        NoFetchWithCandidate(At(es, n), es[n], t);
      }
    }
  }

  // ----- what the force-inject flag vouches for -----

  /** A request that was bound to k succeeds. */
  predicate Serves(s: State, e: Event, k: Key) {
    && e.act.Complete? && e.act.outcome == Succeeded && e.act.id in s.requests && s.requests[e.act.id].key == k
  }

  /** k has the flag, and st is what the cache holds for it. */
  predicate Vouched(s: State, k: Key, st: Stored) {
    k in s.forceInject && k in s.current && s.current[k] == st
  }

  lemma OwnFinishVouches(s: State, now: Time, t: nat, k: Key, st: Stored)
    requires t in s.tasks && Vouched(OwnFinish(s, now, t), k, st)
    ensures || Vouched(s, k, st)
            || (s.tasks[t].key == k && Promotes(s, now, s.tasks[t]) && s.tasks[t].candidate.value == st)
  {
    FinishedParts(s, now, t);
    hide OwnFinish, Newer, Fresh, Backoff;
  }

  lemma FinishVouches(s: State, e: Event, k: Key, st: Stored)
    requires e.act.Finish? && Vouched(FinishStep(s, e.at, e.act.task, e.act.expired), k, st)
    ensures || Vouched(s, k, st)
            || (PromotesAt(s, e, k) && s.tasks[e.act.task].candidate.value == st)
  {
    hide Ends, FinishStep, OwnFinish, Newer, Fresh, Vouched;
    var t := e.act.task;
    FinishIs(s, e.at, t, e.act.expired);
    if Ends(s, t, e.act.expired) {
      if s.tasks[t].generation == s.generation {
        OwnFinishVouches(s, e.at, t, k, st);
      } else {
        DroppedVouches(s, t, k, st);
      }
    }
  }

  lemma DroppedVouches(s: State, t: nat, k: Key, st: Stored)
    ensures Vouched(s.(tasks := Drop(s.tasks, t)), k, st) <==> Vouched(s, k, st)
  {
  }

  lemma CompleteVouches(s: State, e: Event, k: Key, st: Stored)
    requires Inv(s) && e.act.Complete?
    requires Vouched(CompleteStep(s, e.at, e.act.id, e.act.outcome, e.act.code, e.act.error), k, st)
    ensures Vouched(s, k, st) && !Serves(s, e, k)
  {
    if e.act.id in s.candidates { CompletedAllowed(s, e.act.id); }
    hide Inv, CompletionQueue, Newer, Fresh, Allowed;
  }

  lemma ClearVouches(s: State, now: Time, scope: Scope, sel: Selector, k: Key, st: Stored)
    requires Vouched(ClearStep(s, now, scope, sel), k, st)
    ensures Vouched(s, k, st)
  {
    hide Removed, Forgotten;
  }

  /** Only a promoting probe vouches, and no configuration and no served request survives in between. */
  lemma VouchStep(s: State, e: Event, k: Key, st: Stored)
    requires Inv(s) && Vouched(Step(s, e), k, st)
    ensures || (Vouched(s, k, st) && !Reconfigures(e) && !Serves(s, e, k))
            || (PromotesAt(s, e, k) && s.tasks[e.act.task].candidate.value == st)
  {
    hide Inv, Step, FinishStep, CompleteStep, ClearStep, ConfigureStep, Accepts, Vouched, PromotesAt;
    match e.act
    case Finish(_, _) =>
      StepIs(s, e);
      FinishVouches(s, e, k, st);
    case Complete(_, _, _, _) =>
      StepIs(s, e);
      CompleteVouches(s, e, k, st);
    case Clear(scope, sel) =>
      StepIs(s, e);
      ClearVouches(s, e.at, scope, sel, k, st);
    case _ => QuietVouch(s, e, k, st);
  }

  lemma QuietVouch(s: State, e: Event, k: Key, st: Stored)
    requires !e.act.Finish? && !e.act.Complete? && !e.act.Clear? && Vouched(Step(s, e), k, st)
    ensures Vouched(s, k, st) && !Reconfigures(e)
  {
    hide Step, ConfigureStep, Accepts;
    if Reconfigures(e) {
      StepIs(s, e);
      ConfiguredParts(s, e.act.raw, e.act.file);
    } else {
      StepFootprint(s, e);
    }
  }

  predicate Unserved(es: seq<Event>, i: nat, n: nat, k: Key)
    requires n <= |es|
  {
    forall j | i <= j < n :: !Reconfigures(es[j]) && !Serves(At(es, j), es[j], k)
  }

  lemma UnservedOn(es: seq<Event>, i: nat, n: nat, k: Key)
    requires n < |es| && Unserved(es, i, n, k) && !Reconfigures(es[n]) && !Serves(At(es, n), es[n], k)
    ensures Unserved(es, i, n + 1, k)
  {
    hide At, Serves, Reconfigures;
  }

  /** f is the promotion that put st under k; since then no configuration, and no success on k. */
  predicate PromotedBy(es: seq<Event>, f: nat, n: nat, k: Key, st: Stored)
    requires n <= |es|
  {
    && f < n && PromotesAt(At(es, f), es[f], k) && At(es, f).tasks[es[f].act.task].candidate.value == st
    && Unserved(es, f + 1, n, k)
  }

  lemma {:induction false} VouchedIsPromoted(es: seq<Event>, n: nat, k: Key, st: Stored)
    requires n <= |es| && Vouched(At(es, n), k, st)
    ensures exists f: nat :: PromotedBy(es, f, n, k, st)
  {
    hide Step, Inv, PromotesAt, Reconfigures, Serves, Unserved;
    assert n > 0;
    Reachable(es, n - 1);
    VouchStep(At(es, n - 1), es[n - 1], k, st);
    if Vouched(At(es, n - 1), k, st) && !Reconfigures(es[n - 1]) && !Serves(At(es, n - 1), es[n - 1], k) {
      VouchedIsPromoted(es, n - 1, k, st);
      var f: nat :| PromotedBy(es, f, n - 1, k, st);
      UnservedOn(es, f + 1, n - 1, k);
      assert PromotedBy(es, f, n, k, st);
    } else {
      NoneServed(es, n, k);
      assert PromotedBy(es, n - 1, n, k, st);
    }
  }

  lemma NoneServed(es: seq<Event>, n: nat, k: Key)
    requires n <= |es|
    ensures Unserved(es, n, n, k)
  {
    hide At;
  }

  // ----- every injected value -----

  /** The chain behind a vouched state: probe t started at b while a refresh for k was pending, its fetch
      delivered the value at l and was accepted, its last section promoted it at f; since the start no configuration was
      taken, and since the promotion no request bound to k succeeded. */
  predicate Fetched(es: seq<Event>, b: nat, l: nat, f: nat, n: nat, k: Key, st: Stored)
    requires n <= |es|
  {
    && b < l < f < n
    && StartsAt(At(es, b), es[b], k) && k in At(es, b).refreshRequests
    && AcceptsAt(At(es, l), es[l], At(es, b).poolCursor, st)
    && es[f].act.Finish? && es[f].act.task == At(es, b).poolCursor && PromotedBy(es, f, n, k, st)
    && forall j | b <= j < n :: !Reconfigures(es[j])
  }

  lemma {:induction false} SameGeneration(es: seq<Event>, b: nat, f: nat, j: nat)
    requires b <= j < f <= |es| && At(es, b).generation == At(es, f).generation
    ensures !Bumps(es[j])
  {
    hide Step, Bumps;
    GenerationGrows(es, b, j);
    GenerationStep(At(es, j), es[j]);
    GenerationGrows(es, j + 1, f);
  }

  lemma {:induction false} SameConfig(es: seq<Event>, b: nat, n: nat)
    requires b <= n <= |es| && forall j :: b <= j < n ==> !Reconfigures(es[j])
    ensures At(es, b).config == At(es, n).config
  {
    hide Step, Reconfigures;
    if b < n {
      SameConfig(es, b, n - 1);
      ConfigStep(At(es, n - 1), es[n - 1]);
    }
  }

  lemma ConfigStep(s: State, e: Event)
    requires !Reconfigures(e)
    ensures Step(s, e).config == s.config
  {
    hide Step, Reconfigures;
    StepFootprint(s, e);
  }

  lemma PendingStart(s: State, e: Event, k: Key)
    requires StartsAt(s, e, k) && EnabledByDefault(s.config.probe.probeOnErrorsOnly)
    ensures k in s.refreshRequests
  {
    hide Matches;
  }

  /** The delivery lies after the start: before it the probe's number is not in use. */
  lemma DeliveredAfterStart(es: seq<Event>, b: nat, l: nat, value: string)
    requires b < |es| && l < |es| && Delivers(At(es, l), es[l], At(es, b).poolCursor, value) && es[b].act.Begin?
    ensures b < l
  {
    hide Step, Inv;
    if l <= b {
      Reachable(es, l);
      CursorsBelow(At(es, l));
      CursorGrows(es, l, b);
      assert false;
    }
  }

  lemma VouchedIsFetched(es: seq<Event>, n: nat, k: Key, st: Stored)
    requires n <= |es| && Vouched(At(es, n), k, st)
    requires EnabledByDefault(At(es, n).config.probe.probeOnErrorsOnly)
    ensures exists b: nat, l: nat, f: nat :: Fetched(es, b, l, f, n, k, st)
  {
    hide Step, At, Ends, MayStart, Delivers, ProbeCandidate, Vouched, Serves, Reconfigures, Newer, Fresh;
    VouchedIsPromoted(es, n, k, st);
    var f: nat :| PromotedBy(es, f, n, k, st);
    var t := es[f].act.task;
    EndsIn(At(es, f), t, es[f].act.expired);
    ProbeIsLaunched(es, f, t);
    var b: nat :| LaunchedBy(es, b, f, t);
    CandidateIsDelivered(es, f, t);
    var l: nat :| l < f && AcceptsAt(At(es, l), es[l], t, st);
    DeliveredAfterStart(es, b, l, st.value);
    forall j | b <= j < n ensures !Reconfigures(es[j]) {
      if j < f {
        SameGeneration(es, b, f, j);
      } else if j == f {
        assert es[f].act.Finish?;
        NotConfigure(es[f]);
      }
    }
    SameConfig(es, b, n);
    PendingStart(At(es, b), es[b], k);
    assert Fetched(es, b, l, f, n, k, st);
  }

  lemma NotConfigure(e: Event)
    requires !e.act.Configure?
    ensures !Reconfigures(e)
  {
  }

  lemma EndsIn(s: State, t: nat, expired: bool)
    requires Ends(s, t, expired)
    ensures t in s.tasks
  {
  }

  lemma InjectedIsVouched(s: State, now: Time, account: string, model: string, requested: string)
    requires InjectionOf(s, now, account, model, requested).Injected? && EnabledByDefault(s.config.injectOnErrorsOnly)
    ensures var k := KeyOf(account, model);
            k in s.current && InjectionOf(s, now, account, model, requested).value == s.current[k].value
            && Vouched(s, k, s.current[k])
  {
    hide Matches, Trim, Fresh;
  }

  /** Under the defaults every value that a request is given was fetched by a probe, which began after the
      last configuration while a refresh for exactly that key was pending; no business response ever
      reaches a request, and no request bound to the key has succeeded since. */
  lemma InjectedWasFetched(es: seq<Event>, n: nat, now: Time, account: string, model: string, requested: string)
    requires n <= |es|
    requires EnabledByDefault(At(es, n).config.injectOnErrorsOnly)
             && EnabledByDefault(At(es, n).config.probe.probeOnErrorsOnly)
    requires InjectionOf(At(es, n), now, account, model, requested).Injected?
    ensures var k, s := KeyOf(account, model), At(es, n);
            && k in s.current && InjectionOf(s, now, account, model, requested).value == s.current[k].value
            && exists b: nat, l: nat, f: nat :: Fetched(es, b, l, f, n, k, s.current[k])
  {
    hide At, Vouched, Fetched;
    InjectedIsVouched(At(es, n), now, account, model, requested);
    hide InjectionOf, KeyOf;
    VouchedIsFetched(es, n, KeyOf(account, model), At(es, n).current[KeyOf(account, model)]);
  }

  // ----- what a clear spares -----

  lemma OwnModelMatches(patterns: set<string>, model: string)
    ensures Matches(patterns, model) == Matches(patterns, Trim(model))
  {
    TrimTwice(model);
    hide Trim, Lower, MatchesPattern;
  }

  lemma AllowedInReach(s: State, k: Key)
    requires Inv(s) && k in s.current
    ensures Genuine(s.current[k]) && CredentialFor(s.config, k.account).Some?
    ensures NormalBlocks(CredentialFor(s.config, k.account).value, s.current[k].blocks)
  {
    hide ConfigOk, RequestsOk, TasksOk, FlightsOk, Genuine, NormalBlocks;
    assert Allowed(s.config, k, s.current[k]);
  }

  lemma GenuineNotEmpty(st: Stored)
    requires Genuine(st)
    ensures st.value != ""
  {
    assert Trim("") == "";
  }

  /** Of the states that could be injected now into a request for (model, requested), a clear of the invalid
      ones removes exactly those whose own model its policy does not cover, and the expired ones. */
  lemma InvalidClearRemoves(s: State, now: Time, sel: Selector, account: string, model: string, requested: string)
    requires Inv(s)
    requires InjectionOf(s, now, account, model, requested).Injected?
    ensures var k, policy := KeyOf(account, model), CredentialFor(s.config, account);
            && k in s.current && policy.Some?
            && (k in Removed(s, now, Invalid, sel) <==>
                  Selected(sel, k) && (!Matches(policy.value.models, model) || !Fresh(s.current[k], now)))
  {
    hide Inv, Genuine, NormalBlocks, Matches, Trim, Fresh, Selected;
    var k := KeyOf(account, model);
    AllowedInReach(s, k);
    GenuineNotEmpty(s.current[k]);
    OwnModelMatches(CredentialFor(s.config, account).value.models, model);
  }

  /** In every reachable state with `inject_expired` off, clearing the invalid states never removes one
      that could be injected at that time into a request whose only model is the key's own. */
  lemma InvalidClearIsSafe(es: seq<Event>, n: nat, now: Time, sel: Selector, account: string, model: string)
    requires n <= |es| && !At(es, n).config.injectExpired
    requires InjectionOf(At(es, n), now, account, model, model).Injected?
    ensures KeyOf(account, model) !in Removed(At(es, n), now, Invalid, sel)
  {
    Reachable(es, n);
    hide At, Inv, Removed, Matches, Trim, Fresh;
    InvalidClearRemoves(At(es, n), now, sel, account, model, model);
  }
}
