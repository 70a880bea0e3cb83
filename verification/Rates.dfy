/** How often a key can be probed, whatever else happens. */
module Rates {
  import opened Wrappers
  import opened Policy
  import opened Machine
  import opened Frames
  import opened Invariant
  import opened Probes
  import Attempts

  /** A configuration, or a clear that drops the probe bookkeeping of k. */
  predicate Resets(s: State, e: Event, k: Key) {
    || Reconfigures(e)
    || (e.act.Clear? && k in Forgotten(s, s.current - Removed(s, e.at, e.act.scope, e.act.sel), e.act.sel))
  }

  predicate Steady(es: seq<Event>, i: nat, n: nat, k: Key)
    requires i <= n <= |es|
  {
    forall j | i <= j < n :: !Resets(At(es, j), es[j], k)
  }

  // ----- spacing of starts -----

  lemma BeginStamps(s: State, now: Time, j: Key, k: Key)
    ensures MayStart(s, now, k) ==> k in BeginStep(s, now, k).lastProbe && BeginStep(s, now, k).lastProbe[k] == now
    ensures k in s.lastProbe ==> k in BeginStep(s, now, j).lastProbe
                                 && BeginStep(s, now, j).lastProbe[k] in {s.lastProbe[k], now}
    ensures BeginStep(s, now, j).config == s.config
  {
    BeginTasks(s, now, j);
    BeginTasks(s, now, k);
    BeginFrame(s, now, j);
    hide BeginStep, MayStart, NewTask;
  }

  lemma ClearKeepsProbe(s: State, now: Time, scope: Scope, sel: Selector, k: Key)
    requires k !in Forgotten(s, s.current - Removed(s, now, scope, sel), sel)
    ensures k in s.lastProbe ==> k in ClearStep(s, now, scope, sel).lastProbe
                                 && ClearStep(s, now, scope, sel).lastProbe[k] == s.lastProbe[k]
    ensures k in s.blockedUntil ==> k in ClearStep(s, now, scope, sel).blockedUntil
                                    && ClearStep(s, now, scope, sel).blockedUntil[k] == s.blockedUntil[k]
  {
    hide Removed, Forgotten;
  }

  lemma StampStep(s: State, e: Event, k: Key)
    requires !Resets(s, e, k)
    ensures k in s.lastProbe ==> k in Step(s, e).lastProbe && Step(s, e).lastProbe[k] in {s.lastProbe[k], e.at}
    ensures StartsAt(s, e, k) ==> k in Step(s, e).lastProbe && Step(s, e).lastProbe[k] == e.at
    ensures Step(s, e).config == s.config
  {
    hide Step, MayStart, BeginStep, ClearStep, Removed, Forgotten, Accepts;
    StepFootprint(s, e);
    if e.act.Begin? {
      StepIs(s, e);
      BeginStamps(s, e.at, e.act.key, k);
    } else if e.act.Clear? {
      StepIs(s, e);
      ClearKeepsProbe(s, e.at, e.act.scope, e.act.sel, k);
    }
  }

  lemma {:induction false} StampKept(es: seq<Event>, i: nat, n: nat, k: Key)
    requires i < n <= |es| && ClockOk(es) && Steady(es, i, n, k) && StartsAt(At(es, i), es[i], k)
    ensures k in At(es, n).lastProbe && At(es, n).lastProbe[k] >= es[i].at
    ensures At(es, n).config == At(es, i).config
  {
    hide Step, Resets, StartsAt;
    StampStep(At(es, n - 1), es[n - 1], k);
    if i < n - 1 {
      StampKept(es, i, n - 1, k);
    }
  }

  /** Two starts of one key are at least the retry time apart. */
  lemma StartsAreSpaced(es: seq<Event>, i: nat, j: nat, k: Key)
    requires i < j < |es| && ClockOk(es) && Steady(es, i, j, k)
    requires StartsAt(At(es, i), es[i], k) && StartsAt(At(es, j), es[j], k)
    ensures es[j].at - es[i].at >= Seconds(At(es, i).config.probe.retrySeconds)
  {
    StampKept(es, i, j, k);
    StartWaited(At(es, j), es[j].at, k);
    hide At, Step, MayStart, Steady;
  }

  lemma StartWaited(s: State, now: Time, k: Key)
    requires MayStart(s, now, k)
    ensures k in s.lastProbe ==> now - s.lastProbe[k] >= Seconds(s.config.probe.retrySeconds)
    ensures k in s.blockedUntil ==> now >= s.blockedUntil[k]
    ensures s.config.probe.enabled && s.accepting
  {
    hide Matches;
  }

  // ----- counting starts -----

  function Starts(es: seq<Event>, i: nat, n: nat, k: Key): nat
    requires i <= n <= |es|
  {
    if i == n then 0 else Starts(es, i, n - 1, k) + if StartsAt(At(es, n - 1), es[n - 1], k) then 1 else 0
  }

  function LastStart(es: seq<Event>, i: nat, n: nat, k: Key): (r: Option<nat>)
    requires i <= n <= |es|
    ensures r.Some? ==> i <= r.value < n && StartsAt(At(es, r.value), es[r.value], k)
    ensures r.Some? <==> Starts(es, i, n, k) > 0
  {
    if i == n then None
    else if StartsAt(At(es, n - 1), es[n - 1], k) then Some(n - 1)
    else LastStart(es, i, n - 1, k)
  }

  lemma {:induction false} ConfigKept(es: seq<Event>, i: nat, n: nat, k: Key)
    requires i <= n <= |es| && Steady(es, i, n, k)
    ensures At(es, n).config == At(es, i).config
  {
    hide Step, Resets;
    if i < n {
      ConfigKept(es, i, n - 1, k);
      StampStep(At(es, n - 1), es[n - 1], k);
    }
  }

  /** c times a quantity. */
  function Times(c: int, x: int): int {
    c * x
  }

  lemma TimesSteps(c: int, x: int)
    ensures Times(0, x) == 0 && Times(c + 1, x) == Times(c, x) + x
  {
  }

  /** c starts take at least c - 1 retry times. */
  lemma {:induction false} StartsTakeTime(es: seq<Event>, i: nat, n: nat, k: Key)
    requires i <= n <= |es| && ClockOk(es) && Steady(es, i, n, k) && Starts(es, i, n, k) > 0
    ensures es[LastStart(es, i, n, k).value].at - es[i].at
            >= Times(Starts(es, i, n, k) - 1, Seconds(At(es, i).config.probe.retrySeconds))
    decreases n
  {
    hide At, StartsAt, Times, Seconds, ClockOk, Steady;
    assert Steady(es, i, n - 1, k) by { SteadyPart(es, i, n, i, n - 1, k); }
    if !StartsAt(At(es, n - 1), es[n - 1], k) {
      StartsTakeTime(es, i, n - 1, k);
    } else if LastStart(es, i, n - 1, k).Some? {
      StartsTakeTime(es, i, n - 1, k);
      NextStart(es, i, n, k);
    } else {
      ClockRuns(es, i, n - 1);
      TimesSteps(-1, Seconds(At(es, i).config.probe.retrySeconds));
    }
  }

  lemma SteadyPart(es: seq<Event>, i: nat, n: nat, j: nat, m: nat, k: Key)
    requires i <= j <= m <= n <= |es| && Steady(es, i, n, k)
    ensures Steady(es, j, m, k)
  {
    hide At, Resets;
  }

  lemma ClockRuns(es: seq<Event>, i: nat, j: nat)
    requires i <= j < |es| && ClockOk(es)
    ensures es[i].at <= es[j].at
  {
  }

  /** One more start adds one more gap. */
  lemma NextStart(es: seq<Event>, i: nat, n: nat, k: Key)
    requires i < n <= |es| && ClockOk(es) && Steady(es, i, n, k) && StartsAt(At(es, n - 1), es[n - 1], k)
    requires LastStart(es, i, n - 1, k).Some?
    requires es[LastStart(es, i, n - 1, k).value].at - es[i].at
             >= Times(Starts(es, i, n - 1, k) - 1, Seconds(At(es, i).config.probe.retrySeconds))
    ensures es[n - 1].at - es[i].at >= Times(Starts(es, i, n - 1, k), Seconds(At(es, i).config.probe.retrySeconds))
  {
    hide At, StartsAt, Times, Seconds, ClockOk, Steady, Starts, LastStart;
    var m, gap := LastStart(es, i, n - 1, k).value, Seconds(At(es, i).config.probe.retrySeconds);
    SteadyPart(es, i, n, i, m, k);
    SteadyPart(es, i, n, m, n - 1, k);
    ConfigKept(es, i, m, k);
    StartsAreSpaced(es, m, n - 1, k);
    TimesSteps(Starts(es, i, n - 1, k) - 1, gap);
  }

  lemma WindowHolds(es: seq<Event>, i: nat, n: nat, k: Key)
    requires i < n <= |es| && ClockOk(es) && Steady(es, i, n, k) && Seconds(At(es, i).config.probe.retrySeconds) > 0
    ensures Times(Starts(es, i, n, k) - 1, Seconds(At(es, i).config.probe.retrySeconds)) <= es[n - 1].at - es[i].at
  {
    hide At, StartsAt, Steady, Seconds, Times, ClockOk, Starts, LastStart;
    if Starts(es, i, n, k) > 0 {
      StartsTakeTime(es, i, n, k);
      ClockRuns(es, LastStart(es, i, n, k).value, n - 1);
    } else {
      TimesSteps(-1, Seconds(At(es, i).config.probe.retrySeconds));
      ClockRuns(es, i, n - 1);
    }
  }

  /** How many points that are a gap apart fit into a window. */
  function MostStarts(window: Time, gap: Time): int
    requires gap > 0
  {
    window / gap + 1
  }

  /** In a window of length W a key is started at most W / RetrySeconds + 1 times, whatever errors,
      manual refreshes and traffic arrive. */
  lemma RateBound(es: seq<Event>, i: nat, n: nat, k: Key)
    requires i < n <= |es| && ClockOk(es) && Steady(es, i, n, k)
    requires At(es, i).config.probe.enabled
    ensures var retry := Seconds(At(es, i).config.probe.retrySeconds);
            retry > 0 && Starts(es, i, n, k) <= MostStarts(es[n - 1].at - es[i].at, retry)
  {
    RetryPositive(es, i);
    WindowHolds(es, i, n, k);
    hide *;
    var starts: int := Starts(es, i, n, k);
    Quotient(starts - 1, Seconds(At(es, i).config.probe.retrySeconds), es[n - 1].at - es[i].at);
  }

  lemma RetryPositive(es: seq<Event>, i: nat)
    requires i <= |es|
    ensures At(es, i).config.probe.enabled ==> Seconds(At(es, i).config.probe.retrySeconds) > 0
  {
    Reachable(es, i);
    hide At, AllAllowed, RequestsOk, TasksOk, FlightsOk;
  }

  lemma Quotient(c: int, r: int, w: int)
    requires r > 0 && Times(c, r) <= w
    ensures c + 1 <= MostStarts(w, r)
  {
    AboveQuotient(r, w);
    if c > w / r {
      Larger(c, w / r + 1, r);
    }
  }

  lemma AboveQuotient(r: int, w: int)
    requires r > 0
    ensures (w / r + 1) * r > w
  {
    assert (w / r + 1) * r == (w / r) * r + r;
  }

  lemma Larger(a: int, b: int, r: int)
    requires r > 0 && a >= b
    ensures a * r >= b * r
  {
  }

  // ----- counting fetches -----

  /** The event sends probe t through a proxy. */
  predicate Fetches(s: State, e: Event, t: nat) {
    && e.act == Pick(t) && t in s.tasks && MayPick(s.tasks[t])
    && !Waiting(s.proxyBlockedUntil, EndpointOf(s.tasks[t]), e.at)
  }

  function FetchCount(es: seq<Event>, n: nat, probes: set<nat>): nat
    requires n <= |es|
  {
    if n == 0 then 0
    else
      FetchCount(es, n - 1, probes)
        + if es[n - 1].act.Pick? && es[n - 1].act.task in probes
             && Fetches(At(es, n - 1), es[n - 1], es[n - 1].act.task) then 1 else 0
  }

  lemma {:induction false} FetchesAdd(es: seq<Event>, n: nat, probes: set<nat>, t: nat)
    requires n <= |es| && t !in probes
    ensures FetchCount(es, n, probes + {t}) == FetchCount(es, n, probes) + FetchCount(es, n, {t})
  {
    hide At, Fetches;
    if n > 0 {
      FetchesAdd(es, n - 1, probes, t);
    }
  }

  lemma {:induction false} NoFetches(es: seq<Event>, n: nat)
    requires n <= |es|
    ensures FetchCount(es, n, {}) == 0
  {
    hide At, Fetches;
    if n > 0 {
      NoFetches(es, n - 1);
    }
  }

  lemma PickCounts(s: State, now: Time, u: nat, t: nat)
    requires t in s.tasks
    ensures t in PickStep(s, now, u).tasks
    ensures PickStep(s, now, u).tasks[t].attempts
         == s.tasks[t].attempts + if u == t && Fetches(s, Event(now, Pick(u)), t) then 1 else 0
  {
    hide EndpointOf, Waiting;
  }

  lemma AttemptStep(s: State, e: Event, t: nat)
    requires t in s.tasks && t < s.poolCursor && t in Step(s, e).tasks
    ensures Step(s, e).tasks[t].attempts
         == s.tasks[t].attempts + if e.act.Pick? && e.act.task == t && Fetches(s, e, t) then 1 else 0
  {
    hide Step, BeginStep, PickStep, Fetches, MayStart, NewTask;
    match e.act
    case Pick(u) =>
      StepIs(s, e);
      PickCounts(s, e.at, u, t);
    case Begin(k) =>
      StepIs(s, e);
      BeginTasks(s, e.at, k);
    case _ => ProbesMove(s, e);
  }

  lemma {:induction false} NotYet(es: seq<Event>, m: nat, t: nat)
    requires m <= |es| && At(es, m).poolCursor <= t
    ensures FetchCount(es, m, {t}) == 0
  {
    hide Step, Inv;
    if m > 0 {
      CursorStep(At(es, m - 1), es[m - 1]);
      NotYet(es, m - 1, t);
      Reachable(es, m - 1);
      CursorsBelow(At(es, m - 1));
    }
  }

  /** The attempt counter of a running probe counts its fetches. */
  lemma {:induction false} AttemptsAreFetches(es: seq<Event>, b: nat, n: nat, t: nat)
    requires b < n <= |es| && es[b].act.Begin? && StartsAt(At(es, b), es[b], es[b].act.key)
    requires t == At(es, b).poolCursor && t in At(es, n).tasks
    ensures FetchCount(es, n, {t}) == At(es, n).tasks[t].attempts
  {
    hide Step, Fetches, MayStart, EndpointOf;
    StartedGeneration(es, b, es[b].act.key);
    if n == b + 1 {
      NotYet(es, b, t);
    } else {
      ProbeIdentity(es, b + 1, n - 1, t);
      TaskStep(At(es, n - 1), es[n - 1], t);
      AttemptsAreFetches(es, b, n - 1, t);
      AttemptStep(At(es, n - 1), es[n - 1], t);
    }
  }

  function FetchCap(cfg: Config): nat {
    if cfg.probe.maxAttempts < 0 then 0
    else if cfg.probe.maxAttempts <= |cfg.probe.pool| then cfg.probe.maxAttempts else |cfg.probe.pool|
  }

  lemma FetchStays(s: State, e: Event, t: nat)
    requires Fetches(s, e, t)
    ensures t in s.tasks && t in Step(s, e).tasks
  {
    StepIs(s, e);
    hide Step, PickStep;
    PickCounts(s, e.at, t, t);
  }

  /** One start of a probe leads to at most min(MaxAttempts, pool size) fetches, at any later time. */
  lemma {:induction false} FetchesPerStart(es: seq<Event>, b: nat, m: nat, k: Key)
    requires b < |es| && m <= |es| && StartsAt(At(es, b), es[b], k)
    ensures FetchCount(es, m, {At(es, b).poolCursor}) <= FetchCap(At(es, b).config)
    decreases m
  {
    hide Step, Fetches, MayStart, Inv, NewTask;
    var t := At(es, b).poolCursor;
    StartedGeneration(es, b, k);
    if m <= b {
      CursorGrows(es, m, b);
      NotYet(es, m, t);
    } else if t in At(es, m).tasks {
      AttemptsAreFetches(es, b, m, t);
      ProbeIdentity(es, b + 1, m, t);
      NewTaskIs(At(es, b), es[b].at, k);
      Reachable(es, m);
      AttemptsCapped(At(es, m), t);
    } else {
      FetchesPerStart(es, b, m - 1, k);
      if Fetches(At(es, m - 1), es[m - 1], t) { FetchStays(At(es, m - 1), es[m - 1], t); }
    }
  }

  lemma AttemptsCapped(s: State, t: nat)
    requires Inv(s) && t in s.tasks
    ensures s.tasks[t].attempts <= FetchCap(s.tasks[t].config)
  {
    hide Inv, ConfigOk, CandidateOk, CredentialFor;
    TaskAt(s, t);
  }

  /** The probes that k started in a window. */
  function Launched(es: seq<Event>, i: nat, n: nat, k: Key): set<nat>
    requires i <= n <= |es|
  {
    if i == n then {}
    else Launched(es, i, n - 1, k) + if StartsAt(At(es, n - 1), es[n - 1], k) then {At(es, n - 1).poolCursor} else {}
  }

  lemma {:induction false} LaunchedBelow(es: seq<Event>, i: nat, n: nat, k: Key)
    requires i <= n <= |es|
    ensures forall t :: t in Launched(es, i, n, k) ==> At(es, i).poolCursor <= t < At(es, n).poolCursor
  {
    hide Step, MayStart;
    if i < n {
      LaunchedBelow(es, i, n - 1, k);
      CursorGrows(es, i, n - 1);
      CursorStep(At(es, n - 1), es[n - 1]);
    }
  }

  lemma LaunchedNext(es: seq<Event>, i: nat, n: nat, k: Key)
    requires i < n <= |es|
    ensures StartsAt(At(es, n - 1), es[n - 1], k) ==>
              && Launched(es, i, n, k) == Launched(es, i, n - 1, k) + {At(es, n - 1).poolCursor}
              && Starts(es, i, n, k) == Starts(es, i, n - 1, k) + 1
    ensures !StartsAt(At(es, n - 1), es[n - 1], k) ==>
              Launched(es, i, n, k) == Launched(es, i, n - 1, k) && Starts(es, i, n, k) == Starts(es, i, n - 1, k)
  {
    hide At, StartsAt;
  }

  /** All the probes that a window starts for a key lead to at most min(MaxAttempts, pool size) fetches
      each, however long they run. */
  lemma {:induction false} FetchBound(es: seq<Event>, i: nat, n: nat, m: nat, k: Key)
    requires i <= n <= |es| && m <= |es| && Steady(es, i, n, k)
    ensures |Launched(es, i, n, k)| == Starts(es, i, n, k)
    ensures FetchCount(es, m, Launched(es, i, n, k)) <= Times(Starts(es, i, n, k), FetchCap(At(es, i).config))
    decreases n
  {
    hide At, Step, StartsAt, Steady, FetchCap, Fetches, FetchCount, Times;
    if i == n {
      NoFetches(es, m);
      TimesSteps(0, FetchCap(At(es, i).config));
    } else {
      SteadyPart(es, i, n, i, n - 1, k);
      FetchBound(es, i, n - 1, m, k);
      LaunchedNext(es, i, n, k);
      hide Launched, Starts;
      if StartsAt(At(es, n - 1), es[n - 1], k) {
        var t := At(es, n - 1).poolCursor;
        LaunchedBelow(es, i, n - 1, k);
        FetchesAdd(es, m, Launched(es, i, n - 1, k), t);
        FetchesPerStart(es, n - 1, m, k);
        ConfigKept(es, i, n - 1, k);
        TimesSteps(Starts(es, i, n - 1, k), FetchCap(At(es, i).config));
      }
    }
  }

  // ----- one bound for a window -----

  /** The running probes of k in the present generation. */
  function Running(s: State, k: Key): set<nat> {
    set t | t in s.tasks && InFlight(s.generation, s.tasks[t]) && s.tasks[t].key == k
  }

  lemma RunsAlone(es: seq<Event>, i: nat, k: Key, t: nat)
    requires i <= |es| && t in Running(At(es, i), k)
    ensures Running(At(es, i), k) == {t}
    ensures At(es, i).tasks[t].config == At(es, i).config && t < At(es, i).poolCursor
  {
    SingleFlight(es, i);
    Reachable(es, i);
    TaskAt(At(es, i), t);
    hide At, Inv, ConfigOk, CountersOk, CandidateOk, CredentialFor;
  }

  lemma RunningFetches(es: seq<Event>, i: nat, m: nat, k: Key, t: nat)
    requires i <= |es| && m <= |es| && t in Running(At(es, i), k)
    ensures FetchCount(es, m, {t}) <= FetchCap(At(es, i).config)
  {
    hide At, MayStart, FetchCap, FetchCount, InFlight;
    RunsAlone(es, i, k, t);
    ProbeIsLaunched(es, i, t);
    var b: nat :| LaunchedBy(es, b, i, t);
    FetchesPerStart(es, b, m, At(es, i).tasks[t].key);
  }

  /** The fetches for k in a window by probes of the generation at its beginning or of a later one, those that
      were already running included. */
  function WindowFetches(es: seq<Event>, i: nat, n: nat, k: Key): nat
    requires i <= n <= |es|
  {
    if i == n then 0
    else WindowFetches(es, i, n - 1, k) + if FetchesFor(At(es, i).generation, At(es, n - 1), es[n - 1], k) then 1 else 0
  }

  predicate FetchesFor(generation: nat, s: State, e: Event, k: Key) {
    && e.act.Pick? && Fetches(s, e, e.act.task)
    && s.tasks[e.act.task].key == k && s.tasks[e.act.task].generation >= generation
  }

  predicate Concludes(before: Task, after: Task) {
    Concluded(before.phase) ==> Concluded(after.phase)
  }

  lemma ConcludedStep(s: State, e: Event, t: nat)
    requires t in s.tasks && t < s.poolCursor && t in Step(s, e).tasks
    ensures Concludes(s.tasks[t], Step(s, e).tasks[t]) && s.tasks[t].offset <= Step(s, e).tasks[t].offset
  {
    hide Step, MayStart, BeginStep, NewTask;
    if e.act.Begin? {
      StepIs(s, e);
      BeginTasks(s, e.at, e.act.key);
    } else {
      ProbesMove(s, e);
    }
  }

  /** The offset of a probe never goes back, and a concluded probe stays concluded. */
  lemma {:induction false} ProbeGoesOn(es: seq<Event>, j: nat, n: nat, t: nat)
    requires j <= n <= |es| && t < At(es, j).poolCursor && t in At(es, n).tasks
    ensures t in At(es, j).tasks && SameProbe(At(es, j).tasks[t], At(es, n).tasks[t])
    ensures Concludes(At(es, j).tasks[t], At(es, n).tasks[t]) && At(es, j).tasks[t].offset <= At(es, n).tasks[t].offset
  {
    hide Step, SameProbe, Concludes;
    ProbeIdentity(es, j, n, t);
    if j < n {
      ProbeIdentity(es, j, n - 1, t);
      TaskStep(At(es, n - 1), es[n - 1], t);
      ProbeGoesOn(es, j, n - 1, t);
      ConcludedStep(At(es, n - 1), es[n - 1], t);
      ConcludesChain(At(es, j).tasks[t], At(es, n - 1).tasks[t], At(es, n).tasks[t]);
    } else {
      ConcludesSame(At(es, j).tasks[t]);
    }
  }

  lemma ConcludesChain(a: Task, b: Task, c: Task)
    requires Concludes(a, b) && Concludes(b, c)
    ensures Concludes(a, c)
  {
  }

  lemma ConcludesSame(a: Task)
    ensures Concludes(a, a)
  {
  }

  /** Whoever fetches for k in the window was started in it, or was running at its beginning. */
  lemma FetcherIsKnown(es: seq<Event>, i: nat, j: nat, k: Key)
    requires i <= j < |es| && FetchesFor(At(es, i).generation, At(es, j), es[j], k)
    ensures es[j].act.task in Launched(es, i, j, k) + Running(At(es, i), k)
  {
    hide At, Step, MayStart, EndpointOf, Inv, Launched;
    var t := es[j].act.task;
    if t < At(es, i).poolCursor {
      ProbeGoesOn(es, i, j, t);
      Reachable(es, i);
      TaskAt(At(es, i), t);
      NotNewer(At(es, i), t);
    } else {
      ProbeIsLaunched(es, j, t);
      var b: nat :| LaunchedBy(es, b, j, t);
      if b < i {
        CursorGrows(es, b + 1, i);
        StartedGeneration(es, b, k);
      }
      StartIsLaunched(es, i, b, j, k);
    }
  }

  lemma NotNewer(s: State, t: nat)
    requires t in s.tasks && TaskOk(s.config, s.generation, s.tasks[t])
    ensures s.tasks[t].generation <= s.generation
  {
  }

  lemma {:induction false} StartIsLaunched(es: seq<Event>, i: nat, b: nat, n: nat, k: Key)
    requires i <= b < n <= |es| && StartsAt(At(es, b), es[b], k)
    ensures At(es, b).poolCursor in Launched(es, i, n, k)
  {
    hide At, StartsAt;
    LaunchedNext(es, i, n, k);
    if b < n - 1 {
      StartIsLaunched(es, i, b, n - 1, k);
    }
  }

  lemma {:induction false} LaunchedGrows(es: seq<Event>, i: nat, j: nat, n: nat, k: Key)
    requires i <= j <= n <= |es|
    ensures Launched(es, i, j, k) <= Launched(es, i, n, k)
  {
    hide At, StartsAt;
    if j < n {
      LaunchedGrows(es, i, j, n - 1, k);
      LaunchedNext(es, i, n, k);
    }
  }

  /** The fetches of a window are among those of the known probes. */
  lemma {:induction false} WindowIsKnown(es: seq<Event>, i: nat, j: nat, n: nat, k: Key)
    requires i <= j <= n <= |es|
    ensures WindowFetches(es, i, j, k) <= FetchCount(es, j, Launched(es, i, n, k) + Running(At(es, i), k))
    decreases j
  {
    hide At, Fetches, Launched, Running;
    if i < j {
      WindowIsKnown(es, i, j - 1, n, k);
      if FetchesFor(At(es, i).generation, At(es, j - 1), es[j - 1], k) {
        FetcherIsKnown(es, i, j - 1, k);
        LaunchedGrows(es, i, j - 1, n, k);
      }
    }
  }

  lemma KnownFetches(es: seq<Event>, i: nat, n: nat, m: nat, k: Key)
    requires i <= n <= |es| && m <= |es| && Steady(es, i, n, k)
    ensures FetchCount(es, m, Launched(es, i, n, k) + Running(At(es, i), k))
            <= Times(Starts(es, i, n, k) + 1, FetchCap(At(es, i).config))
  {
    hide At, Steady, Starts, Launched, Running, FetchCount, FetchCap, Times;
    FetchBound(es, i, n, m, k);
    TimesSteps(Starts(es, i, n, k), FetchCap(At(es, i).config));
    if Running(At(es, i), k) == {} {
      assert Launched(es, i, n, k) + {} == Launched(es, i, n, k);
    } else {
      var t :| t in Running(At(es, i), k);
      RunsAlone(es, i, k, t);
      RunningFetches(es, i, m, k, t);
      LaunchedBelow(es, i, n, k);
      FetchesAdd(es, m, Launched(es, i, n, k), t);
    }
  }

  /** In a window of length W a key is fetched for at most (W / RetrySeconds + 2) times min(MaxAttempts, pool
      size) times: by every probe that the window may start, and by the one that may already run. */
  lemma WindowFetchBound(es: seq<Event>, i: nat, n: nat, k: Key)
    requires i < n <= |es| && ClockOk(es) && Steady(es, i, n, k)
    requires At(es, i).config.probe.enabled
    ensures var retry := Seconds(At(es, i).config.probe.retrySeconds);
            && retry > 0
            && WindowFetches(es, i, n, k)
               <= Times(MostStarts(es[n - 1].at - es[i].at, retry) + 1, FetchCap(At(es, i).config))
  {
    hide At, Steady, Starts, Launched, Running, FetchCount, WindowFetches, FetchCap, Times, MostStarts, Seconds,
      ClockOk;
    RateBound(es, i, n, k);
    WindowIsKnown(es, i, n, n, k);
    KnownFetches(es, i, n, n, k);
    var most := MostStarts(es[n - 1].at - es[i].at, Seconds(At(es, i).config.probe.retrySeconds));
    TimesGrows(Starts(es, i, n, k) + 1, most + 1, FetchCap(At(es, i).config));
  }

  lemma TimesGrows(a: int, b: int, x: nat)
    requires a <= b
    ensures Times(a, x) <= Times(b, x)
  {
    assert (b - a) * x >= 0;
  }

  // ----- no proxy twice -----

  lemma PickAdvances(s: State, e: Event, t: nat)
    requires Fetches(s, e, t)
    ensures t in Step(s, e).tasks && Step(s, e).tasks[t].offset == s.tasks[t].offset + 1
  {
    StepIs(s, e);
    hide Step, EndpointOf, Waiting;
  }

  /** Two fetches of one probe go through different entries of the pool, in every run. */
  lemma FetchesThroughDifferent(es: seq<Event>, j: nat, n: nat, t: nat)
    requires j < n < |es| && Fetches(At(es, j), es[j], t) && Fetches(At(es, n), es[n], t)
    ensures EndpointOf(At(es, j).tasks[t]) != EndpointOf(At(es, n).tasks[t])
  {
    hide At, Step, Waiting, Inv, EntryAt, TaskOk;
    AtNext(es, j);
    PickAdvances(At(es, j), es[j], t);
    Reachable(es, j);
    TaskAt(At(es, j), t);
    CursorGrows(es, j, j + 1);
    ProbeGoesOn(es, j, n, t);
    ProbeGoesOn(es, j + 1, n, t);
    var a, b := At(es, j).tasks[t], At(es, n).tasks[t];
    Attempts.DifferentEntries(a.cursor, |a.config.probe.pool|, a.offset, b.offset);
  }

  // ----- quota back-off -----

  /** No probe of the present generation is running for k. */
  predicate Grounded(generation: nat, tasks: map<nat, Task>, k: Key) {
    forall t | t in tasks && InFlight(generation, tasks[t]) :: tasks[t].key != k
  }

  /** k waits for a deadline, and nothing is running that could lift it. */
  predicate Benched(s: State, k: Key, until: Time) {
    && k in s.blockedUntil && s.blockedUntil[k] == until
    && Grounded(s.generation, s.tasks, k)
    && forall t :: t in s.tasks ==> s.tasks[t].generation <= s.generation
  }

  lemma MovesGrounded(s: State, s': State, a: Act, k: Key)
    requires Grounded(s.generation, s.tasks, k) && Moves(s.tasks, s'.tasks, a) && s.generation <= s'.generation
    requires forall t :: t in s.tasks ==> s.tasks[t].generation <= s.generation
    ensures Grounded(s'.generation, s'.tasks, k)
    ensures forall t :: t in s'.tasks ==> s'.tasks[t].generation <= s'.generation
  {
    forall t | t in s'.tasks && InFlight(s'.generation, s'.tasks[t]) ensures s'.tasks[t].key != k {
      assert t in s.tasks && InFlight(s.generation, s.tasks[t]);
    }
  }

  lemma BeginBenched(s: State, now: Time, j: Key, k: Key, until: Time)
    requires Benched(s, k, until) && (j == k ==> !MayStart(s, now, j))
    ensures Benched(BeginStep(s, now, j), k, until)
  {
    BeginTasks(s, now, j);
    BeginFrame(s, now, j);
    if MayStart(s, now, j) {
      NewTaskIs(s, now, j);
    }
    hide BeginStep, MayStart, NewTask;
  }

  lemma FinishBlocks(s: State, now: Time, t: nat, expired: bool, k: Key)
    requires Grounded(s.generation, s.tasks, k) && k in s.blockedUntil
    ensures var s' := FinishStep(s, now, t, expired); k in s'.blockedUntil && s'.blockedUntil[k] == s.blockedUntil[k]
  {
    FinishIs(s, now, t, expired);
    hide FinishStep, OwnFinish, Promotes, MayPick;
    if Ends(s, t, expired) && s.tasks[t].generation == s.generation {
      FinishedParts(s, now, t);
      assert InFlight(s.generation, s.tasks[t]);
    }
  }

  lemma BlockStep(s: State, e: Event, k: Key)
    requires !Resets(s, e, k) && Grounded(s.generation, s.tasks, k) && k in s.blockedUntil
    ensures k in Step(s, e).blockedUntil && Step(s, e).blockedUntil[k] == s.blockedUntil[k]
  {
    hide Step, FinishStep, ClearStep, Removed, Forgotten, Grounded, Accepts;
    if e.act.Finish? {
      StepIs(s, e);
      FinishBlocks(s, e.at, e.act.task, e.act.expired, k);
    } else if e.act.Clear? {
      StepIs(s, e);
      ClearKeepsProbe(s, e.at, e.act.scope, e.act.sel, k);
    } else {
      StepFootprint(s, e);
    }
  }

  lemma BenchStep(s: State, e: Event, k: Key, until: Time)
    requires Benched(s, k, until) && !Resets(s, e, k) && !StartsAt(s, e, k)
    ensures Benched(Step(s, e), k, until)
  {
    hide Step, Resets, MayStart, BeginStep, Grounded, Bumps;
    if e.act.Begin? {
      StepIs(s, e);
      hide Benched;
      BeginBenched(s, e.at, e.act.key, k, until);
    } else {
      BlockStep(s, e, k);
      ProbesMove(s, e);
      GenerationStep(s, e);
      MovesGrounded(s, Step(s, e), e.act, k);
    }
  }

  /** A finished probe of the present generation whose last answer was a quota refusal. */
  predicate QuotaFinish(s: State, e: Event, k: Key) {
    && e.act.Finish? && Ends(s, e.act.task, e.act.expired)
    && s.tasks[e.act.task].key == k && s.tasks[e.act.task].generation == s.generation
    && QuotaOutcome(s.tasks[e.act.task].outcome)
  }

  lemma QuotaBlocks(s: State, now: Time, t: nat)
    requires t in s.tasks && QuotaOutcome(s.tasks[t].outcome) && s.tasks[t].candidate.None?
    ensures var s', k := OwnFinish(s, now, t), s.tasks[t].key;
            && s'.tasks == Drop(s.tasks, t) && s'.generation == s.generation
            && k in s'.blockedUntil
            && s'.blockedUntil[k] == now + Seconds(s.tasks[t].config.probe.quotaBackoffSeconds)
  {
    FinishedParts(s, now, t);
    OwnFinishFrame(s, now, t);
    hide OwnFinish, QuotaOutcome;
  }

  lemma QuotaBenches(s: State, e: Event, k: Key)
    requires Inv(s) && QuotaFinish(s, e, k)
    ensures Benched(Step(s, e), k, e.at + Seconds(s.config.probe.quotaBackoffSeconds))
  {
    var t := e.act.task;
    StepIs(s, e);
    FinishIs(s, e.at, t, e.act.expired);
    QuotaTask(s, t);
    QuotaBlocks(s, e.at, t);
    hide Step, FinishStep, OwnFinish, Ends, Inv, QuotaOutcome, Grounded;
    AloneInFlight(s, t);
  }

  lemma QuotaTask(s: State, t: nat)
    requires Inv(s) && t in s.tasks && s.tasks[t].generation == s.generation && QuotaOutcome(s.tasks[t].outcome)
    ensures s.tasks[t].config == s.config && s.tasks[t].candidate.None?
  {
    TaskAt(s, t);
    hide Inv, ConfigOk, CountersOk, CredentialFor;
  }

  lemma AloneInFlight(s: State, t: nat)
    requires Inv(s) && t in s.tasks && s.tasks[t].generation == s.generation && !Concluded(s.tasks[t].phase)
    ensures Grounded(s.generation, Drop(s.tasks, t), s.tasks[t].key)
    ensures forall u :: u in s.tasks ==> s.tasks[u].generation <= s.generation
  {
    hide ConfigOk, AllAllowed, RequestsOk, CountersOk, CandidateOk, CredentialFor;
  }

  lemma {:induction false} StaysBenched(es: seq<Event>, j: nat, n: nat, k: Key, until: Time)
    requires j <= n <= |es| && Benched(At(es, j), k, until) && Steady(es, j, n, k)
    requires forall i :: j <= i < n ==> !StartsAt(At(es, i), es[i], k)
    ensures Benched(At(es, n), k, until)
  {
    hide Step, Resets, StartsAt, Benched;
    if j < n {
      StaysBenched(es, j, n - 1, k, until);
      assert !StartsAt(At(es, n - 1), es[n - 1], k);
      BenchStep(At(es, n - 1), es[n - 1], k, until);
    }
  }

  /** After a quota refusal the next start of the key waits out the configured back-off: no promotion,
      manual refresh or business traffic shortens it. */
  lemma QuotaBackoffHolds(es: seq<Event>, j: nat, n: nat, k: Key)
    requires j < n < |es| && QuotaFinish(At(es, j), es[j], k) && StartsAt(At(es, n), es[n], k)
    requires Steady(es, j + 1, n, k)
    requires forall i :: j < i < n ==> !StartsAt(At(es, i), es[i], k)
    ensures es[n].at >= es[j].at + Seconds(At(es, j).config.probe.quotaBackoffSeconds)
  {
    hide Step, Resets, Inv, QuotaFinish, MayStart, Grounded, Seconds;
    Reachable(es, j);
    QuotaBenches(At(es, j), es[j], k);
    StaysBenched(es, j + 1, n, k, es[j].at + Seconds(At(es, j).config.probe.quotaBackoffSeconds));
    StartWaited(At(es, n), es[n].at, k);
  }
}
