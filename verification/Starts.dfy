/** When a probe starts, and with what. */
module Starts {
  import opened Wrappers
  import opened Policy
  import opened Machine
  import opened Frames
  import opened Probes
  import Freshness
  import Signals

  /** The state of k needs no refresh yet: it is dated at most five minutes ahead, and more than the configured lead
      time is left of its hour. */
  predicate Lasting(s: State, now: Time, k: Key) {
    && k in s.current && s.current[k].value != "" && s.current[k].issuedAt - Seconds(300) <= now
    && now + Seconds(s.config.probe.refreshBeforeSeconds) < s.current[k].issuedAt + Seconds(3600)
  }

  /** A refresh of k is wanted now: one is pending, or, if probes need no failure, its state does not last. */
  predicate Wanted(s: State, now: Time, k: Key) {
    k in s.refreshRequests || (s.config.probe.probeOnErrorsOnly == Some(false) && !Lasting(s, now, k))
  }

  /** Neither a back-off of the key or its account nor the retry time stands against a probe. */
  predicate Rested(s: State, now: Time, k: Key) {
    && (k in s.blockedUntil ==> s.blockedUntil[k] <= now)
    && (k.account in s.accountBlockedUntil ==> s.accountBlockedUntil[k.account] <= now)
    && (k in s.lastProbe ==> s.lastProbe[k] + Seconds(s.config.probe.retrySeconds) <= now)
  }

  /** The account may be probed for this model at all. */
  predicate Probeable(s: State, k: Key) {
    var policy := CredentialFor(s.config, k.account);
    && s.accepting && s.live && s.config.probe.enabled
    && policy.Some? && policy.value.plan != Free && Signals.SelfUpdates(s.config, policy.value)
    && Matches(policy.value.models, k.model)
  }

  lemma DueIs(s: State, now: Time, k: Key)
    ensures Due(s, now, k) && !Waiting(s.accountBlockedUntil, k.account, now)
       <==> Wanted(s, now, k) && Rested(s, now, k)
  {
  }

  lemma GateIs(s: State, now: Time, k: Key)
    ensures MayStart(s, now, k) <==>
              && Probeable(s, k) && Wanted(s, now, k) && Rested(s, now, k)
              && k !in s.probing && |s.probing| < 4
  {
    DueIs(s, now, k);
    if CredentialFor(s.config, k.account).Some? {
      Signals.UpdatesAre(s.config, CredentialFor(s.config, k.account).value);
    }
    hide Due, Wanted, Rested, Matches, AutoUpdate, Signals.SelfUpdates, CredentialFor;
  }

  /** In every run a probe starts exactly if the account may be probed, a refresh is wanted, nothing stands against it
      and a slot is free. It takes the slot and the time, and works with the configuration, policy, generation and
      clock of that moment; its reason is the pending one, or whether there is a state at all. */
  lemma StartsExactly(es: seq<Event>, n: nat, k: Key)
    requires n < |es| && es[n].act == Begin(k)
    ensures var s, s', now := At(es, n), At(es, n + 1), es[n].at;
            if Probeable(s, k) && Wanted(s, now, k) && Rested(s, now, k) && k !in s.probing && |s.probing| < 4 then
              && s'.probing == s.probing + {k} && s'.lastProbe == s.lastProbe[k := now]
              && s.poolCursor in s'.tasks
              && var task := s'.tasks[s.poolCursor];
                 && task.key == k && task.config == s.config && Some(task.policy) == CredentialFor(s.config, k.account)
                 && task.generation == s.generation && task.startedAt == now && task.cursor == s.poolCursor
                 && task.reason == (if k in s.refreshRequests then s.refreshRequests[k]
                                    else if k in s.current && s.current[k].value != "" then BeforeExpiry
                                    else MissingState)
            else s' == s
  {
    hide At, Step, BeginStep, MayStart, Wanted, Rested, Probeable;
    AtNext(es, n);
    StepIs(At(es, n), es[n]);
    GateIs(At(es, n), es[n].at, k);
    BeginTasks(At(es, n), es[n].at, k);
    if MayStart(At(es, n), es[n].at, k) {
      TaskIs(At(es, n), es[n].at, k);
    }
  }

  lemma TaskIs(s: State, now: Time, k: Key)
    requires MayStart(s, now, k)
    ensures var task := NewTask(s, now, k);
            && task.key == k && task.config == s.config && Some(task.policy) == CredentialFor(s.config, k.account)
            && task.generation == s.generation && task.startedAt == now && task.cursor == s.poolCursor
            && task.reason == (if k in s.refreshRequests then s.refreshRequests[k]
                               else if k in s.current && s.current[k].value != "" then BeforeExpiry
                               else MissingState)
  {
    hide Due, Matches;
  }

  /** From the failure to the probe: after a failure of a request on k, the next start of k that finds the account
      probeable, a free slot and nothing against it takes place, as long as nothing settled the refresh. */
  lemma FailureStartsProbe(es: seq<Event>, i: nat, n: nat, k: Key)
    requires i < n < |es| && Signals.Fails(At(es, i), es[i], k) && Signals.WantsRefresh(At(es, i), k)
    requires forall j :: i < j < n ==> !Freshness.Settles(At(es, j), es[j], k)
    requires es[n].act == Begin(k) && Probeable(At(es, n), k) && Rested(At(es, n), es[n].at, k)
    requires k !in At(es, n).probing && |At(es, n).probing| < 4
    ensures k in At(es, n + 1).probing && StartsAt(At(es, n), es[n], k)
  {
    hide At, MayStart, Rested, Probeable, Signals.Fails, Signals.WantsRefresh, Freshness.Settles, Lasting;
    Signals.FailureStaysPending(es, i, n, k);
    GateIs(At(es, n), es[n].at, k);
    StartsExactly(es, n, k);
  }

  // ----- a stopped plugin -----

  /** The plugin has been stopped at i, and not configured since. */
  predicate Stopped(es: seq<Event>, i: nat, n: nat)
    requires i < n <= |es|
  {
    (es[i].act.Quiesce? || es[i].act.Shutdown?) && forall j | i < j < n :: !Reconfigures(es[j])
  }

  lemma StopIs(s: State, e: Event)
    requires e.act.Quiesce? || e.act.Shutdown?
    ensures var s' := Step(s, e);
            && !s'.accepting && !s'.live && s'.current == s.current && s'.tasks == s.tasks && s'.probing == s.probing
            && (e.act.Shutdown? ==> s'.generation == s.generation + 1 && s'.requests == map[] && s'.candidates == map[])
            && (e.act.Quiesce? ==>
                  s'.generation == s.generation && s'.requests == s.requests && s'.candidates == s.candidates)
  {
    hide Step;
    StepIs(s, e);
  }

  lemma {:induction false} StaysStopped(es: seq<Event>, i: nat, n: nat)
    requires i < n <= |es| && Stopped(es, i, n)
    ensures !At(es, n).accepting && !At(es, n).live
  {
    hide At, Step, Reconfigures;
    AtNext(es, n - 1);
    if n == i + 1 {
      StopIs(At(es, i), es[i]);
    } else {
      StaysStopped(es, i, n - 1);
      if es[n - 1].act.Quiesce? || es[n - 1].act.Shutdown? {
        StopIs(At(es, n - 1), es[n - 1]);
      } else {
        StepFootprint(At(es, n - 1), es[n - 1]);
      }
    }
  }

  /** From a stop to the next configuration nothing is done: no probe starts, no state enters the cache, no refresh
      becomes pending, and every request is left untouched. */
  lemma StoppedIsInert(es: seq<Event>, i: nat, n: nat, k: Key, now: Time, account: string, model: string,
                       requested: string)
    requires i < n < |es| && Stopped(es, i, n) && !Reconfigures(es[n])
    ensures var s, s' := At(es, n), At(es, n + 1);
            && s'.poolCursor == s.poolCursor
            && (k in s'.current ==> k in s.current && s'.current[k] == s.current[k])
            && (k in s'.refreshRequests ==> k in s.refreshRequests)
            && InjectionOf(s, now, account, model, requested) == Untouched
  {
    hide At, Step, Reconfigures, MayStart, Freshness.OfferOf, Signals.Fails;
    StaysStopped(es, i, n);
    AtNext(es, n);
    var s, e := At(es, n), es[n];
    CursorStep(s, e);
    StoppedGate(s, e.at, k);
    if k !in s.refreshRequests {
      Signals.PendingIffSignalled(es, n, k);
    }
    StoppedCache(s, e, k);
    StoppedStarts(s, e);
  }

  lemma StoppedGate(s: State, now: Time, k: Key)
    requires !s.accepting
    ensures !Signals.WantsRefresh(s, k) && forall sel :: !Signals.Picks(s, now, sel, k)
  {
  }

  lemma StoppedStarts(s: State, e: Event)
    requires !s.accepting
    ensures e.act.Begin? ==> !StartsAt(s, e, e.act.key)
  {
    hide Matches, Due;
  }

  lemma StoppedCache(s: State, e: Event, k: Key)
    requires !s.accepting && !Reconfigures(e)
    ensures k in Step(s, e).current ==> k in s.current && Step(s, e).current[k] == s.current[k]
  {
    hide Step, ClearStep, Reconfigures, Ends, Fresh;
    if e.act.Clear? {
      StepIs(s, e);
      ClearKeepsTheRest(s, e.at, e.act.scope, e.act.sel, k);
    } else {
      Freshness.StepTakes(s, e);
    }
  }

  lemma ClearKeepsTheRest(s: State, now: Time, scope: Scope, sel: Selector, k: Key)
    ensures var current := ClearStep(s, now, scope, sel).current;
            k in current ==> k in s.current && current[k] == s.current[k]
  {
    hide Removed, Forgotten;
  }
}
