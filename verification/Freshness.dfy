/** The cache only ever gets newer, pending refreshes are not lost. */
module Freshness {
  import opened Text
  import opened Wrappers
  import opened Policy
  import opened Machine
  import opened Frames
  import Fernet
  import Sse

  // ----- what one event offers the cache -----

  predicate NotOlder(before: map<Key, Stored>, after: map<Key, Stored>, k: Key) {
    k in before ==> k in after && before[k].issuedAt <= after[k].issuedAt
  }

  /** `current` with st taken under k if it is strictly newer. */
  function Offered(current: map<Key, Stored>, k: Key, st: Stored): map<Key, Stored> {
    if Newer(current, k, st) then current[k := st] else current
  }

  datatype Offer = Offer(key: Key, state: Stored)

  function OwnOffer(s: State, now: Time, t: nat): Option<Offer>
    requires t in s.tasks
  {
    if s.accepting && s.tasks[t].candidate.Some? && Fresh(s.tasks[t].candidate.value, now)
    then Some(Offer(s.tasks[t].key, s.tasks[t].candidate.value)) else None
  }

  function FinishOffer(s: State, now: Time, t: nat, expired: bool): Option<Offer> {
    if Ends(s, t, expired) && s.tasks[t].generation == s.generation then OwnOffer(s, now, t) else None
  }

  function CompleteOffer(s: State, now: Time, id: string, outcome: Completion): Option<Offer> {
    if id in s.candidates && s.accepting && outcome == Succeeded && Fresh(s.candidates[id].state, now)
    then Some(Offer(s.candidates[id].key, s.candidates[id].state)) else None
  }

  /** The state that an event hands in for promotion: a fresh one, brought by a probe of the present
      generation or by a completed request. */
  function OfferOf(s: State, e: Event): Option<Offer> {
    match e.act
    case Finish(t, expired) => FinishOffer(s, e.at, t, expired)
    case Complete(id, outcome, _, _) => CompleteOffer(s, e.at, id, outcome)
    case _ => None
  }

  function Taken(current: map<Key, Stored>, offer: Option<Offer>): map<Key, Stored> {
    if offer.Some? then Offered(current, offer.value.key, offer.value.state) else current
  }

  lemma OwnFinishTakes(s: State, now: Time, t: nat)
    requires t in s.tasks
    ensures OwnFinish(s, now, t).current == Taken(s.current, OwnOffer(s, now, t))
  {
    FinishedParts(s, now, t);
    hide OwnFinish, Fresh;
  }

  lemma FinishTakes(s: State, now: Time, t: nat, expired: bool)
    ensures FinishStep(s, now, t, expired).current == Taken(s.current, FinishOffer(s, now, t, expired))
  {
    FinishIs(s, now, t, expired);
    hide Ends, FinishStep, OwnFinish, OwnOffer;
    if Ends(s, t, expired) && s.tasks[t].generation == s.generation {
      OwnFinishTakes(s, now, t);
    } else {
      assert FinishOffer(s, now, t, expired) == None;
    }
  }

  lemma CompleteTakes(s: State, now: Time, id: string, outcome: Completion, code: int, error: string)
    ensures CompleteStep(s, now, id, outcome, code, error).current
            == Taken(s.current, CompleteOffer(s, now, id, outcome))
  {
    hide CompletionQueue, Fresh;
  }

  /** Promotion is nothing but taking a newer offer. */
  lemma StepTakes(s: State, e: Event)
    requires !e.act.Clear? && !Reconfigures(e)
    ensures Step(s, e).current == Taken(s.current, OfferOf(s, e))
  {
    hide Step, FinishStep, CompleteStep, Reconfigures, FinishOffer, CompleteOffer;
    if e.act.Finish? {
      StepIs(s, e);
      FinishTakes(s, e.at, e.act.task, e.act.expired);
    } else if e.act.Complete? {
      StepIs(s, e);
      CompleteTakes(s, e.at, e.act.id, e.act.outcome, e.act.code, e.act.error);
    } else {
      CurrentKept(s, e);
    }
  }

  // ----- freshness -----

  lemma ClearNotOlder(s: State, now: Time, scope: Scope, sel: Selector, k: Key)
    requires k !in Removed(s, now, scope, sel)
    ensures NotOlder(s.current, ClearStep(s, now, scope, sel).current, k)
  {
    hide Removed, Forgotten;
  }

  lemma MergeNotOlder(cfg: Config, into: map<Key, Stored>, from: map<Key, Stored>, k: Key)
    ensures NotOlder(into, Merge(cfg, into, from), k)
    ensures k in from && InScope(cfg, k, from[k]) ==>
              k in Merge(cfg, into, from) && from[k].issuedAt <= Merge(cfg, into, from)[k].issuedAt
  {
    hide InScope;
  }

  lemma ConfigureNotOlder(s: State, raw: RawConfig, file: FileView, k: Key)
    requires Accepts(raw, file) && k in s.current && InScope(Prepare(raw).value, k, s.current[k])
    ensures NotOlder(s.current, ConfigureStep(s, raw, file).current, k)
  {
    var cfg := Prepare(raw).value;
    var loaded := if file.Entries? then Load(file.values, cfg.maxStateBytes) else map[];
    MergeNotOlder(cfg, Merge(cfg, Seeds(cfg), loaded), s.current, k);
    hide Prepare, Load, Merge, Seeds, InScope;
  }

  /** A clear that names k, or a configuration that puts it out of scope. */
  predicate Forgets(s: State, e: Event, k: Key) {
    || (e.act.Clear? && k in Removed(s, e.at, e.act.scope, e.act.sel))
    || (Reconfigures(e) && k in s.current && !InScope(Prepare(e.act.raw).value, k, s.current[k]))
  }

  lemma StepNotOlder(s: State, e: Event, k: Key)
    requires !Forgets(s, e, k)
    ensures NotOlder(s.current, Step(s, e).current, k)
  {
    hide Step, ClearStep, ConfigureStep, Accepts, Prepare, InScope, OfferOf, Removed;
    if e.act.Clear? {
      StepIs(s, e);
      ClearNotOlder(s, e.at, e.act.scope, e.act.sel, k);
    } else if Reconfigures(e) {
      StepIs(s, e);
      if k in s.current { ConfigureNotOlder(s, e.act.raw, e.act.file, k); }
    } else {
      StepTakes(s, e);
    }
  }

  /** In every run a state is replaced only by a state issued at the same time or later, unless a
      clear removes it or a configuration no longer covers it. */
  lemma {:induction false} FreshnessMonotone(es: seq<Event>, i: nat, n: nat, k: Key)
    requires i <= n <= |es|
    requires forall j :: i <= j < n ==> !Forgets(At(es, j), es[j], k)
    ensures NotOlder(At(es, i).current, At(es, n).current, k)
  {
    hide Step, Forgets;
    if i < n {
      FreshnessMonotone(es, i, n - 1, k);
      assert !Forgets(At(es, n - 1), es[n - 1], k);
      StepNotOlder(At(es, n - 1), es[n - 1], k);
    }
  }

  // ----- confluence -----

  function OfferAll(current: map<Key, Stored>, offers: seq<Offer>): map<Key, Stored> {
    if offers == [] then current
    else
      var before := OfferAll(current, offers[..|offers| - 1]);
      Offered(before, offers[|offers| - 1].key, offers[|offers| - 1].state)
  }

  /** What a stretch of a run hands in, in order. */
  function Offers(es: seq<Event>, i: nat, n: nat): seq<Offer>
    requires i <= n <= |es|
  {
    if i == n then []
    else
      var last := OfferOf(At(es, n - 1), es[n - 1]);
      Offers(es, i, n - 1) + (if last.Some? then [last.value] else [])
  }

  predicate Settled(es: seq<Event>, i: nat, n: nat)
    requires i <= n <= |es|
  {
    forall j | i <= j < n :: !es[j].act.Clear? && !Reconfigures(es[j])
  }

  lemma OneMoreOffer(current: map<Key, Stored>, offers: seq<Offer>, last: Option<Offer>)
    ensures OfferAll(current, offers + (if last.Some? then [last.value] else []))
            == Taken(OfferAll(current, offers), last)
  {
    if last.Some? {
      assert (offers + [last.value])[..|offers|] == offers;
    } else {
      assert offers + [] == offers;
    }
    hide Newer;
  }

  /** Between clears and configurations the cache is the fold of everything handed in. */
  lemma {:induction false} RunTakesOffers(es: seq<Event>, i: nat, n: nat)
    requires i <= n <= |es| && Settled(es, i, n)
    ensures At(es, n).current == OfferAll(At(es, i).current, Offers(es, i, n))
  {
    hide Step, OfferOf, OfferAll, Taken, Reconfigures;
    if i < n {
      RunTakesOffers(es, i, n - 1);
      StepTakes(At(es, n - 1), es[n - 1]);
      OneMoreOffer(At(es, i).current, Offers(es, i, n - 1), OfferOf(At(es, n - 1), es[n - 1]));
    } else {
      NoOffers(At(es, i).current);
    }
  }

  lemma NoOffers(current: map<Key, Stored>)
    ensures OfferAll(current, []) == current
  {
  }

  /** The fold keeps, under every key, the newest of the old state and of all offers for the key. */
  lemma {:induction false} OfferAllIsNewest(current: map<Key, Stored>, offers: seq<Offer>, k: Key)
    ensures var r := OfferAll(current, offers);
            && NotOlder(current, r, k)
            && (forall o :: o in offers && o.key == k ==> k in r && o.state.issuedAt <= r[k].issuedAt)
            && (k in r ==> (k in current && r[k] == current[k]) || Offer(k, r[k]) in offers)
  {
    if offers != [] {
      OfferAllIsNewest(current, offers[..|offers| - 1], k);
    }
  }

  /** The order of the offers does not matter for what is fresh at the end. */
  lemma OrderIrrelevant(current: map<Key, Stored>, a: seq<Offer>, b: seq<Offer>, k: Key)
    requires multiset(a) == multiset(b)
    ensures k in OfferAll(current, a) <==> k in OfferAll(current, b)
    ensures k in OfferAll(current, a) ==> OfferAll(current, a)[k].issuedAt == OfferAll(current, b)[k].issuedAt
  {
    OfferAllIsNewest(current, a, k);
    OfferAllIsNewest(current, b, k);
    hide OfferAll;
    assert forall o :: o in a ==> o in multiset(a);
    assert forall o :: o in b ==> o in multiset(b);
  }

  /** Two runs that start from the same cache and hand in the same states, each in its own order and
      interleaved with anything but clears and configurations, end equally fresh. */
  lemma InterleavingIrrelevant(es: seq<Event>, i: nat, n: nat, fs: seq<Event>, j: nat, m: nat, k: Key)
    requires i <= n <= |es| && j <= m <= |fs| && Settled(es, i, n) && Settled(fs, j, m)
    requires At(es, i).current == At(fs, j).current && multiset(Offers(es, i, n)) == multiset(Offers(fs, j, m))
    ensures k in At(es, n).current <==> k in At(fs, m).current
    ensures k in At(es, n).current ==> At(es, n).current[k].issuedAt == At(fs, m).current[k].issuedAt
  {
    hide At, Offers, OfferAll, Settled;
    RunTakesOffers(es, i, n);
    RunTakesOffers(fs, j, m);
    OrderIrrelevant(At(es, i).current, Offers(es, i, n), Offers(fs, j, m), k);
  }

  // ----- what configure builds -----

  function Loaded(cfg: Config, file: FileView): map<Key, Stored> {
    if file.Entries? then Load(file.values, cfg.maxStateBytes) else map[]
  }

  predicate Source(cfg: Config, from: map<Key, Stored>, k: Key) {
    k in from && InScope(cfg, k, from[k])
  }

  lemma SeedsAre(cfg: Config, k: Key)
    ensures k in Seeds(cfg) <==> HasSeed(cfg, k)
    ensures HasSeed(cfg, k) ==> Seeds(cfg)[k] == SeedOf(cfg, k)
  {
    hide Fernet.Parse, Trim;
    if HasSeed(cfg, k) {
      assert k == Key(k.account, cfg.credentials[k.account].stateModel);
    }
  }

  /** Under every key configure keeps the newest of the seed, the in-scope file entry and the in-scope
      state in memory; of equally new ones it keeps the seed, then the file entry. */
  lemma ConfiguredIsNewest(cfg: Config, file: FileView, memory: map<Key, Stored>, k: Key)
    ensures var r, loaded := Configured(cfg, file, memory), Loaded(cfg, file);
            && (k in r <==> HasSeed(cfg, k) || Source(cfg, loaded, k) || Source(cfg, memory, k))
            && (HasSeed(cfg, k) ==> SeedOf(cfg, k).issuedAt <= r[k].issuedAt)
            && (Source(cfg, loaded, k) ==> loaded[k].issuedAt <= r[k].issuedAt)
            && (Source(cfg, memory, k) ==> memory[k].issuedAt <= r[k].issuedAt)
            && (k in r ==>
                  || (HasSeed(cfg, k) && r[k] == SeedOf(cfg, k))
                  || (Source(cfg, loaded, k) && r[k] == loaded[k]
                      && (HasSeed(cfg, k) ==> SeedOf(cfg, k).issuedAt < r[k].issuedAt))
                  || (Source(cfg, memory, k) && r[k] == memory[k]
                      && (HasSeed(cfg, k) ==> SeedOf(cfg, k).issuedAt < r[k].issuedAt)
                      && (Source(cfg, loaded, k) ==> loaded[k].issuedAt < r[k].issuedAt)))
  {
    SeedsAre(cfg, k);
    hide Seeds, Load, InScope, HasSeed, SeedOf;
  }

  // ----- pending refreshes -----

  /** A strictly newer state came in under k, or a clear or a configuration dropped the bookkeeping. */
  predicate Settles(s: State, e: Event, k: Key) {
    || Reconfigures(e)
    || (e.act.Clear? && (k in Removed(s, e.at, e.act.scope, e.act.sel)
                         || k in Forgotten(s, s.current - Removed(s, e.at, e.act.scope, e.act.sel), e.act.sel)))
    || (k in Step(s, e).current && Newer(s.current, k, Step(s, e).current[k]))
  }

  lemma FinishKeepsPending(s: State, now: Time, t: nat, expired: bool, k: Key)
    requires k in s.refreshRequests
    ensures var s' := FinishStep(s, now, t, expired);
            (k in s'.refreshRequests && s'.refreshRequests[k] == s.refreshRequests[k])
            || (k in s'.current && Newer(s.current, k, s'.current[k]))
  {
    FinishIs(s, now, t, expired);
    if Ends(s, t, expired) && s.tasks[t].generation == s.generation {
      FinishedParts(s, now, t);
    }
    hide Ends, FinishStep, OwnFinish, Fresh, Backoff;
  }

  lemma CompleteKeepsPending(s: State, now: Time, id: string, outcome: Completion, code: int, error: string, k: Key)
    requires k in s.refreshRequests
    ensures var s' := CompleteStep(s, now, id, outcome, code, error);
            (k in s'.refreshRequests && s'.refreshRequests[k] == s.refreshRequests[k])
            || (k in s'.current && Newer(s.current, k, s'.current[k]))
  {
    hide Fresh, FailureReason, Queues;
  }

  lemma HookKeepsPending(s: State, e: Event, k: Key)
    requires k in s.refreshRequests && (e.act.Detach? || e.act.Observe?)
    ensures k in Step(s, e).refreshRequests && Step(s, e).refreshRequests[k] == s.refreshRequests[k]
  {
    StepIs(s, e);
    hide Step, Queues, FailuresIn, Sse.Feed;
  }

  lemma RefreshKeepsPending(s: State, now: Time, sel: Selector, k: Key)
    requires k in s.refreshRequests
    ensures k in RefreshStep(s, now, sel).refreshRequests
    ensures RefreshStep(s, now, sel).refreshRequests[k] in {s.refreshRequests[k], Manual}
  {
    hide Queued;
  }

  lemma ClearKeepsPending(s: State, now: Time, scope: Scope, sel: Selector, k: Key)
    requires k in s.refreshRequests && k !in Removed(s, now, scope, sel)
    requires k !in Forgotten(s, s.current - Removed(s, now, scope, sel), sel)
    ensures k in ClearStep(s, now, scope, sel).refreshRequests
    ensures ClearStep(s, now, scope, sel).refreshRequests[k] == s.refreshRequests[k]
  {
    hide Removed, Forgotten;
  }

  lemma StepKeepsPending(s: State, e: Event, k: Key)
    requires k in s.refreshRequests && !Settles(s, e, k)
    ensures k in Step(s, e).refreshRequests && Step(s, e).refreshRequests[k] in {s.refreshRequests[k], Manual}
  {
    hide Step, FinishStep, CompleteStep, RefreshStep, ClearStep, Reconfigures, Removed, Forgotten;
    match e.act
    case Finish(t, expired) =>
      StepIs(s, e);
      FinishKeepsPending(s, e.at, t, expired, k);
    case Complete(id, outcome, code, error) =>
      StepIs(s, e);
      CompleteKeepsPending(s, e.at, id, outcome, code, error, k);
    case Detach(_) => HookKeepsPending(s, e, k);
    case Observe(_, _, _, _) => HookKeepsPending(s, e, k);
    case Refresh(sel) =>
      StepIs(s, e);
      RefreshKeepsPending(s, e.at, sel, k);
    case Clear(scope, sel) =>
      StepIs(s, e);
      ClearKeepsPending(s, e.at, scope, sel, k);
    case _ => StepFootprint(s, e);
  }

  /** In every run a queued refresh stays queued through failed probes, rejected states, back-off and
      further signals, until a strictly newer state for its key comes in, or a clear or a configuration
      removes it; only a manual refresh renames its reason. */
  lemma {:induction false} PendingNeverLost(es: seq<Event>, i: nat, n: nat, k: Key)
    requires i <= n <= |es| && k in At(es, i).refreshRequests
    requires forall j :: i <= j < n ==> !Settles(At(es, j), es[j], k)
    ensures k in At(es, n).refreshRequests
    ensures At(es, n).refreshRequests[k] in {At(es, i).refreshRequests[k], Manual}
  {
    hide Step, Settles;
    if i < n {
      PendingNeverLost(es, i, n - 1, k);
      assert !Settles(At(es, n - 1), es[n - 1], k);
      StepKeepsPending(At(es, n - 1), es[n - 1], k);
    }
  }
}
