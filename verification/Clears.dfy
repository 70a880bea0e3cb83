/** What a clear takes and what it leaves, scope by scope. */
module Clears {
  import opened Text
  import opened Policy
  import opened Machine
  import opened Invariant
  import Answers
  import Fernet

  /** The clear is about k: without any selector about every key, otherwise about those that one of them names. */
  predicate Chosen(sel: Selector, k: Key) {
    || (sel.keys == {} && sel.accounts == {} && sel.models == {})
    || k in sel.keys || k.account in sel.accounts || Lower(k.model) in sel.models
  }

  /** Keys without an account or a model are never cleared. */
  predicate Clearable(sel: Selector, k: Key) {
    Chosen(sel, k) && k.account != "" && k.model != ""
  }

  /** The state exists and is less than an hour old. */
  predicate Alive(st: Stored, now: Time) {
    st.value != "" && now < st.issuedAt + Seconds(3600)
  }

  /** The policy in force now would take the state for k now. */
  predicate Usable(cfg: Config, k: Key, st: Stored, now: Time) {
    var policy := CredentialFor(cfg, k.account);
    && Alive(st, now) && st.issuedAt - Seconds(300) <= now
    && policy.Some? && Matches(policy.value.models, k.model) && NormalBlocks(policy.value, st.blocks)
  }

  lemma ChosenAre(sel: Selector, k: Key)
    ensures Selected(sel, k) <==> Chosen(sel, k)
  {
    hide Lower;
  }

  lemma RemovedIs(s: State, now: Time, scope: Scope, sel: Selector, k: Key)
    ensures k in Removed(s, now, scope, sel) <==>
              && k in s.current && Clearable(sel, k)
              && (scope == Expired ==> !Alive(s.current[k], now))
              && (scope == Invalid ==> !Usable(s.config, k, s.current[k], now))
  {
    ChosenAre(sel, k);
    hide Selected, Chosen, Matches, NormalBlocks, CredentialFor;
  }

  lemma CurrentIs(s: State, now: Time, scope: Scope, sel: Selector, k: Key)
    ensures var current := ClearStep(s, now, scope, sel).current;
            && (k in current <==> k in s.current && k !in Removed(s, now, scope, sel))
            && (k in current ==> current[k] == s.current[k])
  {
    hide Removed, Forgotten;
  }

  /** Scope "expired": what is left of the chosen keys is alive, and every other entry is left as it is. */
  lemma ExpiredLeavesAlive(s: State, now: Time, sel: Selector, k: Key)
    ensures var current := ClearStep(s, now, Expired, sel).current;
            && (k in current <==> k in s.current && (Clearable(sel, k) ==> Alive(s.current[k], now)))
            && (k in current ==> current[k] == s.current[k])
  {
    CurrentIs(s, now, Expired, sel, k);
    RemovedIs(s, now, Expired, sel, k);
    hide ClearStep, Removed, Clearable, Alive, Usable;
  }

  /** Scope "invalid": what is left of the chosen keys is usable under the policy in force, and every other entry is
      left as it is. */
  lemma InvalidLeavesUsable(s: State, now: Time, sel: Selector, k: Key)
    ensures var current := ClearStep(s, now, Invalid, sel).current;
            && (k in current <==> k in s.current && (Clearable(sel, k) ==> Usable(s.config, k, s.current[k], now)))
            && (k in current ==> current[k] == s.current[k])
  {
    CurrentIs(s, now, Invalid, sel, k);
    RemovedIs(s, now, Invalid, sel, k);
    hide ClearStep, Removed, Clearable, Alive, Usable;
  }

  /** Scope "all": exactly the entries of other keys are left. */
  lemma EverythingLeavesOthers(s: State, now: Time, sel: Selector, k: Key)
    ensures var current := ClearStep(s, now, Everything, sel).current;
            && (k in current <==> k in s.current && !Clearable(sel, k))
            && (k in current ==> current[k] == s.current[k])
  {
    CurrentIs(s, now, Everything, sel, k);
    RemovedIs(s, now, Everything, sel, k);
    hide ClearStep, Removed, Clearable, Alive, Usable;
  }

  /** In every reachable state with `inject_expired` off, a clear of the expired states takes nothing that a request
      could be answered with at that moment. */
  lemma ExpiredClearIsSafe(es: seq<Event>, n: nat, now: Time, sel: Selector,
                           account: string, model: string, requested: string)
    requires n <= |es| && !At(es, n).config.injectExpired
    requires InjectionOf(At(es, n), now, account, model, requested).Injected?
    ensures var k, current := KeyOf(account, model), ClearStep(At(es, n), now, Expired, sel).current;
            k in current && current[k] == At(es, n).current[k]
  {
    hide At, ClearStep, Chosen, InjectionOf, Answers.Foreign, Fernet.Parse;
    var k := KeyOf(account, model);
    Answers.AnswerIs(At(es, n), now, account, model, requested);
    ReachableGenuine(es, n, k);
    ExpiredLeavesAlive(At(es, n), now, sel, k);
  }

  lemma ReachableGenuine(es: seq<Event>, n: nat, k: Key)
    requires n <= |es| && k in At(es, n).current
    ensures At(es, n).current[k].value != ""
  {
    Reachable(es, n);
    hide At, ConfigOk, RequestsOk, TasksOk, FlightsOk, NormalBlocks;
    assert Allowed(At(es, n).config, k, At(es, n).current[k]);
    GenuineNotEmpty(At(es, n).current[k]);
  }

  lemma GenuineNotEmpty(st: Stored)
    requires Genuine(st)
    ensures st.value != ""
  {
    assert Trim("") == "";
  }

  // ----- the bookkeeping -----

  /** k has probe results, is chosen, and has no state after the clear. */
  predicate Idle(s: State, after: map<Key, Stored>, sel: Selector, k: Key) {
    k in s.probeResults && k !in after && Chosen(sel, k)
  }

  lemma IdleIs(s: State, after: map<Key, Stored>, sel: Selector, k: Key)
    ensures k in Forgotten(s, after, sel) <==> Idle(s, after, sel, k)
  {
    ChosenAre(sel, k);
    hide Selected, Chosen;
  }

  /** With a state its pending refresh goes; of the chosen keys that have no state left the results, the reasons, the
      retry times, the back-offs and the pending refreshes go, so that they can be probed at once; everything else
      stays, the mark for injection too. */
  lemma ClearForgetsIdle(s: State, now: Time, scope: Scope, sel: Selector, k: Key)
    ensures var s' := ClearStep(s, now, scope, sel);
            var idle := Idle(s, s'.current, sel, k);
            var gone := k in s.current && k !in s'.current;
            && (k in s'.refreshRequests <==> k in s.refreshRequests && !gone && !idle)
            && (k in s'.refreshRequests ==> s'.refreshRequests[k] == s.refreshRequests[k])
            && (k in s'.probeResults <==> k in s.probeResults && !idle)
            && (k in s'.probeReasons <==> k in s.probeReasons && !idle)
            && (k in s'.lastProbe <==> k in s.lastProbe && !idle)
            && (k in s'.lastProbe ==> s'.lastProbe[k] == s.lastProbe[k])
            && (k in s'.blockedUntil <==> k in s.blockedUntil && !idle)
            && (k in s'.blockedUntil ==> s'.blockedUntil[k] == s.blockedUntil[k])
            && s'.forceInject == s.forceInject && s'.probing == s.probing
  {
    CurrentIs(s, now, scope, sel, k);
    ForgottenParts(s, now, scope, sel, k);
    RemovedIs(s, now, scope, sel, k);
    IdleIs(s, ClearStep(s, now, scope, sel).current, sel, k);
    hide ClearStep, Removed, Forgotten, Idle, Chosen, Clearable, Alive, Usable;
  }

  lemma ForgottenParts(s: State, now: Time, scope: Scope, sel: Selector, k: Key)
    ensures var s' := ClearStep(s, now, scope, sel);
            var idle := k in Forgotten(s, s'.current, sel);
            && (k in s'.refreshRequests <==> k in s.refreshRequests && k !in Removed(s, now, scope, sel) && !idle)
            && (k in s'.refreshRequests ==> s'.refreshRequests[k] == s.refreshRequests[k])
            && (k in s'.probeResults <==> k in s.probeResults && !idle)
            && (k in s'.probeReasons <==> k in s.probeReasons && !idle)
            && (k in s'.lastProbe <==> k in s.lastProbe && !idle)
            && (k in s'.lastProbe ==> s'.lastProbe[k] == s.lastProbe[k])
            && (k in s'.blockedUntil <==> k in s.blockedUntil && !idle)
            && (k in s'.blockedUntil ==> s'.blockedUntil[k] == s.blockedUntil[k])
            && s'.forceInject == s.forceInject && s'.probing == s.probing
  {
    hide Removed, Forgotten;
  }
}
