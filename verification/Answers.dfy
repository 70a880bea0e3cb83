/** What a request is answered with: the converse of the origin of injected values. A state that a probe
    promoted reaches the requests on its key. */
module Answers {
  import opened Text
  import opened Wrappers
  import opened Policy
  import opened Machine
  import opened Frames
  import opened Invariant
  import opened Probes
  import Endings
  import Fernet
  import Freshness
  import Injection
  import Requests

  // ----- the answer -----

  /** The request is none of the plugin's business. */
  predicate Foreign(s: State, account: string, model: string, requested: string) {
    var policy := CredentialFor(s.config, account);
    || account == "" || Trim(model) == "" || !s.accepting || policy.None? || policy.value.plan == Free
    || !(Matches(policy.value.models, model) || Matches(policy.value.models, requested))
  }

  /** The three answers: a request out of scope, and one of a free plan, is left untouched; one in scope is given
      the cached value of its key if there is one that is dated at most five minutes ahead, is less than an hour
      old or may be injected nevertheless, and, by default, was promoted for it; otherwise it is cleared. */
  lemma AnswerIs(s: State, now: Time, account: string, model: string, requested: string)
    ensures var answer, k := InjectionOf(s, now, account, model, requested), KeyOf(account, model);
            && (answer == Untouched <==> Foreign(s, account, model, requested))
            && (answer.Injected? <==>
                  && !Foreign(s, account, model, requested) && k in s.current
                  && s.current[k].issuedAt - Seconds(300) <= now
                  && (s.config.injectExpired || now < s.current[k].issuedAt + Seconds(3600))
                  && (s.config.injectOnErrorsOnly == Some(false) || k in s.forceInject))
            && (answer.Injected? ==> answer.value == s.current[k].value)
  {
    hide Matches, Trim, CredentialFor;
  }

  // ----- a promotion -----

  /** The end of a probe puts st under k. */
  predicate Installs(s: State, s': State, e: Event, k: Key, st: Stored) {
    e.act.Finish? && k in s'.current && s'.current[k] == st && !(k in s.current && s.current[k] == st)
  }

  /** What a probe of the present generation has kept is promoted when it ends, if the plugin accepts requests and
      the state is less than an hour old and strictly newer than the cached one; with it the pending refresh, the
      back-off of the key and the block of the account are over, and the key is marked for injection. */
  lemma KeptIsPromoted(es: seq<Event>, f: nat, t: nat, st: Stored)
    requires f < |es| && Endings.Concludes(At(es, f), At(es, f + 1), es[f], t)
    requires var s := At(es, f);
             && s.tasks[t].generation == s.generation && s.accepting && s.tasks[t].candidate == Some(st)
             && es[f].at < st.issuedAt + Seconds(3600)
             && (s.tasks[t].key in s.current ==> s.current[s.tasks[t].key].issuedAt < st.issuedAt)
    ensures var k, s' := At(es, f).tasks[t].key, At(es, f + 1);
            && Installs(At(es, f), s', es[f], k, st)
            && k in s'.forceInject && k !in s'.refreshRequests && k !in s'.blockedUntil
            && k.account !in s'.accountBlockedUntil
  {
    hide At, Step, OwnFinish, FinishStep, Backoff, MayFinish, EndHistory;
    AtNext(es, f);
    Endings.TaskConcludes(At(es, f), es[f], t);
    StepIs(At(es, f), es[f]);
    FinishIs(At(es, f), es[f].at, t, es[f].act.expired);
    FinishedParts(At(es, f), es[f].at, t);
  }

  lemma AcceptingStays(s: State, e: Event)
    requires s.accepting && !Reconfigures(e) && !e.act.Quiesce? && !e.act.Shutdown?
    ensures Step(s, e).accepting
  {
    hide Step, Reconfigures;
    StepFootprint(s, e);
  }

  lemma OwnInstalls(s: State, now: Time, t: nat, k: Key, st: Stored)
    requires t in s.tasks
    requires var s' := OwnFinish(s, now, t);
             k in s'.current && s'.current[k] == st && !(k in s.current && s.current[k] == st)
    ensures s.tasks[t].key == k && s.tasks[t].candidate == Some(st) && s.accepting
    ensures k in OwnFinish(s, now, t).forceInject
  {
    FinishedParts(s, now, t);
    hide OwnFinish, Backoff, Fresh, Newer, EndHistory;
  }

  lemma FinishInstalls(s: State, now: Time, t: nat, expired: bool, k: Key, st: Stored)
    requires var s' := FinishStep(s, now, t, expired);
             k in s'.current && s'.current[k] == st && !(k in s.current && s.current[k] == st)
    ensures t in s.tasks && s.tasks[t].key == k && s.tasks[t].candidate == Some(st) && s.accepting
    ensures k in FinishStep(s, now, t, expired).forceInject
  {
    FinishIs(s, now, t, expired);
    hide OwnFinish, FinishStep, Ends;
    if Ends(s, t, expired) && s.tasks[t].generation == s.generation {
      OwnInstalls(s, now, t, k, st);
    }
  }

  lemma InstallFlags(s: State, e: Event, k: Key, st: Stored)
    requires Installs(s, Step(s, e), e, k, st)
    ensures var t := e.act.task;
            && t in s.tasks && s.tasks[t].key == k && s.tasks[t].candidate == Some(st)
            && s.accepting && Step(s, e).accepting && k in Step(s, e).forceInject
  {
    hide Step, FinishStep, Accepts;
    StepIs(s, e);
    FinishInstalls(s, e.at, e.act.task, e.act.expired, k, st);
    AcceptingStays(s, e);
  }

  // ----- no state from the future -----

  lemma {:induction false} StartedInPast(es: seq<Event>, n: nat, t: nat)
    requires 0 < n <= |es| && ClockOk(es) && t in At(es, n).tasks
    ensures At(es, n).tasks[t].startedAt <= es[n - 1].at
  {
    hide At, Step, Inv;
    AtNext(es, n - 1);
    Endings.NotAtStart(es, t);
    if t in At(es, n - 1).tasks {
      Endings.InUse(es, n - 1, n - 1, t);
      TaskStep(At(es, n - 1), es[n - 1], t);
      StartedInPast(es, n - 1, t);
    } else {
      Endings.NewTaskAfter(At(es, n - 1), es[n - 1], t);
    }
  }

  lemma KeptIsDated(task: Task, e: Event)
    requires e.act.Land? && Endings.KeptOf(task, e).Some?
    ensures Endings.KeptOf(task, e).value.issuedAt <= task.startedAt + SKEW
  {
    hide Fernet.Parse, NormalBlocks;
  }

  /** What a probe keeps is dated at most five minutes after the present. */
  lemma ProbeStateNotAhead(es: seq<Event>, n: nat, t: nat)
    requires 0 < n <= |es| && ClockOk(es) && t in At(es, n).tasks && At(es, n).tasks[t].candidate.Some?
    ensures At(es, n).tasks[t].candidate.value.issuedAt <= es[n - 1].at + SKEW
  {
    hide At, Endings.KeptOf, Endings.OutcomeOf, Endings.Found, Endings.LastAnswer;
    Endings.OutcomeIsHonest(es, n, t);
    var l := Endings.LastAnswer(es, n, t).value;
    KeptIsDated(At(es, l).tasks[t], es[l]);
    Endings.InUse(es, l, l, t);
    ProbeIdentity(es, l, n, t);
    StartedInPast(es, n, t);
  }

  lemma CapturedIsDated(s: State, now: Time, id: string, header: string)
    requires Captured(s, now, id, header).Some?
    ensures Captured(s, now, id, header).value.state.issuedAt <= now + SKEW
  {
    hide Fernet.Parse, NormalBlocks, Matches, Trim, Newer, Fresh;
  }

  lemma StagedNotAhead(es: seq<Event>, n: nat, id: string)
    requires 0 < n <= |es| && ClockOk(es) && id in At(es, n).candidates
    ensures At(es, n).candidates[id].state.issuedAt <= es[n - 1].at + SKEW
  {
    hide At, Captured, Requests.NotRenewed, Requests.NotFailed;
    Requests.CandidateIsStaged(es, n, id);
    var m: nat :| Requests.StagedBy(es, m, n, id);
    CapturedIsDated(At(es, m), es[m].at, id, es[m].act.header);
  }

  // ----- from the promotion to the request -----

  /** No configuration and no stop, no clear of k, no success of a request bound to k. */
  predicate Undisturbed(es: seq<Event>, i: nat, n: nat, k: Key)
    requires n <= |es|
  {
    forall j | i <= j < n ::
      && !Reconfigures(es[j]) && !es[j].act.Quiesce? && !es[j].act.Shutdown? && !Injection.Serves(At(es, j), es[j], k)
      && (es[j].act.Clear? ==> k in At(es, j + 1).current)
  }

  /** k has a state at least as new as st that is not dated ahead, it is marked, and requests are accepted. */
  predicate Ready(s: State, last: Time, k: Key, st: Stored) {
    && s.accepting && k in s.forceInject && k in s.current
    && st.issuedAt <= s.current[k].issuedAt <= last + SKEW
  }

  lemma FinishedFlags(s: State, now: Time, t: nat, expired: bool, k: Key)
    requires k in s.forceInject
    ensures k in FinishStep(s, now, t, expired).forceInject
  {
    FinishIs(s, now, t, expired);
    if Ends(s, t, expired) && s.tasks[t].generation == s.generation {
      FinishedParts(s, now, t);
    }
    hide FinishStep, OwnFinish, Backoff, Ends, Promotes, EndHistory;
  }

  lemma CompletedFlags(s: State, e: Event, k: Key)
    requires e.act.Complete? && k in s.forceInject && !Injection.Serves(s, e, k)
    ensures k in CompleteStep(s, e.at, e.act.id, e.act.outcome, e.act.code, e.act.error).forceInject
  {
    hide CompletionQueue, CompletionPromotes;
  }

  lemma FlagStays(s: State, e: Event, k: Key)
    requires k in s.forceInject && !Reconfigures(e) && !Injection.Serves(s, e, k)
    ensures k in Step(s, e).forceInject
  {
    hide Step, FinishStep, CompleteStep, Reconfigures, Injection.Serves;
    if e.act.Finish? {
      StepIs(s, e);
      FinishedFlags(s, e.at, e.act.task, e.act.expired, k);
    } else if e.act.Complete? {
      StepIs(s, e);
      CompletedFlags(s, e, k);
    } else {
      StepFootprint(s, e);
    }
  }

  /** What the step offers is not dated ahead. */
  lemma OfferNotAhead(es: seq<Event>, n: nat)
    requires n < |es| && ClockOk(es) && Freshness.OfferOf(At(es, n), es[n]).Some?
    ensures Freshness.OfferOf(At(es, n), es[n]).value.state.issuedAt <= es[n].at + SKEW
  {
    hide At, Ends, Fresh;
    var s, e := At(es, n), es[n];
    if n == 0 {
      NothingAtStart(es, e);
    } else if e.act.Finish? {
      EndsIn(s, e.act.task, e.act.expired);
      ProbeStateNotAhead(es, n, e.act.task);
    } else {
      StagedNotAhead(es, n, e.act.id);
    }
  }

  lemma EndsIn(s: State, t: nat, expired: bool)
    requires Ends(s, t, expired)
    ensures t in s.tasks
  {
  }

  lemma NothingAtStart(es: seq<Event>, e: Event)
    ensures Freshness.OfferOf(At(es, 0), e).None?
  {
  }

  lemma CurrentGoesOn(es: seq<Event>, n: nat, k: Key, st: Stored, last: Time)
    requires n < |es| && ClockOk(es) && Ready(At(es, n), last, k, st) && last <= es[n].at
    requires !Reconfigures(es[n]) && (es[n].act.Clear? ==> k in At(es, n + 1).current)
    ensures var current := At(es, n + 1).current;
            k in current && st.issuedAt <= current[k].issuedAt <= es[n].at + SKEW
  {
    hide At, Step, Reconfigures, Freshness.OfferOf;
    var s, e := At(es, n), es[n];
    AtNext(es, n);
    if e.act.Clear? {
      StepIs(s, e);
      ClearSpares(s, e.at, e.act.scope, e.act.sel, k);
    } else {
      Freshness.StepTakes(s, e);
      if Freshness.OfferOf(s, e).Some? {
        OfferNotAhead(es, n);
      }
    }
  }

  lemma ClearSpares(s: State, now: Time, scope: Scope, sel: Selector, k: Key)
    requires k in ClearStep(s, now, scope, sel).current
    ensures k in s.current && ClearStep(s, now, scope, sel).current[k] == s.current[k]
  {
    hide Removed, Forgotten;
  }

  lemma {:induction false} StaysReady(es: seq<Event>, i: nat, n: nat, k: Key, st: Stored)
    requires 0 < i <= n <= |es| && ClockOk(es) && Undisturbed(es, i, n, k)
    requires Ready(At(es, i), es[i - 1].at, k, st)
    ensures Ready(At(es, n), es[n - 1].at, k, st)
  {
    hide At, Step, Reconfigures, Injection.Serves;
    if i < n {
      StaysReady(es, i, n - 1, k, st);
      AtNext(es, n - 1);
      FlagStays(At(es, n - 1), es[n - 1], k);
      AcceptingStays(At(es, n - 1), es[n - 1]);
      CurrentGoesOn(es, n - 1, k, st, es[n - 2].at);
    }
  }

  /** In every run: once a probe has promoted st under k, every request on k that is in scope is answered with the
      cached value, and that state is at least as new as st, until its hour is over, a configuration is taken, the
      plugin stops, a clear removes it, or a request bound to k succeeds. */
  lemma PromotedIsInjected(es: seq<Event>, f: nat, n: nat, now: Time, k: Key, st: Stored,
                           account: string, model: string, requested: string)
    requires f < n <= |es| && ClockOk(es) && es[n - 1].at <= now < st.issuedAt + Seconds(3600)
    requires Installs(At(es, f), At(es, f + 1), es[f], k, st) && Undisturbed(es, f + 1, n, k)
    requires account != "" && Trim(model) != "" && k == KeyOf(account, model)
    requires var policy := CredentialFor(At(es, n).config, account);
             && policy.Some? && policy.value.plan != Free
             && (Matches(policy.value.models, model) || Matches(policy.value.models, requested))
    ensures k in At(es, n).current && st.issuedAt <= At(es, n).current[k].issuedAt
    ensures InjectionOf(At(es, n), now, account, model, requested) == Injected(At(es, n).current[k].value)
  {
    hide At, Step, Trim, Matches, CredentialFor, InjectionOf, Undisturbed;
    AtNext(es, f);
    InstallFlags(At(es, f), es[f], k, st);
    InstalledNotAhead(es, f);
    StaysReady(es, f + 1, n, k, st);
    AnswerIs(At(es, n), now, account, model, requested);
  }

  lemma InstalledNotAhead(es: seq<Event>, f: nat)
    requires f < |es| && ClockOk(es) && es[f].act.Finish?
    requires es[f].act.task in At(es, f).tasks && At(es, f).tasks[es[f].act.task].candidate.Some?
    ensures At(es, f).tasks[es[f].act.task].candidate.value.issuedAt <= es[f].at + SKEW
  {
    hide At;
    Endings.NotAtStart(es, es[f].act.task);
    ProbeStateNotAhead(es, f, es[f].act.task);
  }
}
