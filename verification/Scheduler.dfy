/** The background scheduler against the gate of a probe start. */
module Scheduler {
  import opened Policy
  import opened Machine
  import opened Invariant

  const YEAR: Time := 31_536_000_000_000_000

  function Later(a: Time, b: Time): Time {
    if b > a then b else a
  }

  /** `nextRefreshLocked`; `clock` is its own reading of the time. */
  function NextRefresh(s: State, k: Key, clock: Time): Time {
    if EnabledByDefault(s.config.probe.probeOnErrorsOnly) && k !in s.refreshRequests then clock + YEAR
    else
      var due := if Holds(s, k) && k !in s.refreshRequests
                 then s.current[k].issuedAt + (TTL - Seconds(s.config.probe.refreshBeforeSeconds)) else clock;
      var retried := if k in s.lastProbe then Later(due, s.lastProbe[k] + Seconds(s.config.probe.retrySeconds))
                     else due;
      if k in s.blockedUntil then Later(retried, s.blockedUntil[k]) else retried
  }

  /** Nothing is pending for k, and what it holds is dated beyond the tolerated clock skew. */
  predicate DatedAhead(s: State, now: Time, k: Key) {
    && k !in s.refreshRequests && !EnabledByDefault(s.config.probe.probeOnErrorsOnly)
    && Holds(s, k) && s.current[k].issuedAt > now + SKEW
  }

  lemma RefreshWindow(cfg: Config)
    requires ConfigOk(cfg) && cfg.probe.enabled
    ensures 0 <= Seconds(cfg.probe.refreshBeforeSeconds) < TTL
  {
  }

  /** With one reading of the clock the scheduler holds a key due exactly when the gate's own conditions
      on the key would let a probe start; a state dated ahead is the one exception: the gate
      ignores it, the scheduler waits for it. */
  lemma SchedulerAgreesWithGate(s: State, now: Time, k: Key)
    requires Inv(s) && s.config.probe.enabled
    ensures NextRefresh(s, k, now) <= now <==> Due(s, now, k) && !DatedAhead(s, now, k)
  {
    hide Inv, ConfigOk, Seconds;
    assert ConfigOk(s.config) by { ConfigInReach(s); }
    RefreshWindow(s.config);
    if k in s.refreshRequests {
      PendingNeedsOneReading(s, now, now, k);
    } else if !EnabledByDefault(s.config.probe.probeOnErrorsOnly) {
      QuietAgrees(s, now, k);
    }
  }

  lemma ConfigInReach(s: State)
    requires Inv(s)
    ensures ConfigOk(s.config)
  {
    hide ConfigOk, AllAllowed, RequestsOk, TasksOk, FlightsOk;
  }

  lemma QuietAgrees(s: State, now: Time, k: Key)
    requires k !in s.refreshRequests && !EnabledByDefault(s.config.probe.probeOnErrorsOnly)
    requires 0 <= Seconds(s.config.probe.refreshBeforeSeconds) < TTL
    ensures NextRefresh(s, k, now) <= now <==> Due(s, now, k) && !DatedAhead(s, now, k)
  {
    hide Seconds;
  }

  /** The two readings of the clock in one pass: a pending key counts as due only if they agree. */
  lemma PendingNeedsOneReading(s: State, now: Time, clock: Time, k: Key)
    requires now <= clock && k in s.refreshRequests
    ensures NextRefresh(s, k, clock) <= now <==> clock == now && Due(s, now, k)
  {
    hide Seconds;
  }

  // ----- the order of the visits -----

  datatype Job = Job(key: Key, due: Time)

  /** Go's order on strings. */
  predicate LexLess(a: string, b: string) {
    b != "" && (a == "" || a[0] < b[0] || (a[0] == b[0] && LexLess(a[1..], b[1..])))
  }

  lemma {:induction false} LexTrichotomy(a: string, b: string)
    ensures a != b ==> LexLess(a, b) != LexLess(b, a)
    ensures !LexLess(a, a)
  {
    if a != "" {
      LexTrichotomy(a[1..], a[1..]);
    }
    if a != "" && b != "" && a[0] == b[0] {
      assert a == [a[0]] + a[1..] && b == [b[0]] + b[1..];
      LexTrichotomy(a[1..], b[1..]);
    }
  }

  lemma {:induction false} LexTransitive(a: string, b: string, c: string)
    requires LexLess(a, b) && LexLess(b, c)
    ensures LexLess(a, c)
  {
    if a != "" && a[0] == b[0] == c[0] {
      LexTransitive(a[1..], b[1..], c[1..]);
    }
  }

  /** The text that stands for a key, `stateKey`. */
  type Encoding = Key -> string

  ghost predicate Injective(encode: Encoding) {
    forall a, b | encode(a) == encode(b) :: a == b
  }

  predicate Before(encode: Encoding, a: Job, b: Job) {
    a.due < b.due || (a.due == b.due && LexLess(encode(a.key), encode(b.key)))
  }

  lemma BeforeTransitive(encode: Encoding, a: Job, b: Job, c: Job)
    requires Before(encode, a, b) && Before(encode, b, c)
    ensures Before(encode, a, c)
  {
    if a.due == b.due == c.due {
      LexTransitive(encode(a.key), encode(b.key), encode(c.key));
    }
  }

  lemma BeforeTrichotomy(encode: Encoding, a: Job, b: Job)
    requires Injective(encode) && a != b
    ensures Before(encode, a, b) != Before(encode, b, a)
  {
    LexTrichotomy(encode(a.key), encode(b.key));
    if a.due == b.due {
      assert encode(a.key) != encode(b.key);
    }
  }

  predicate Ordered(encode: Encoding, jobs: seq<Job>) {
    forall i, j | 0 <= i < j < |jobs| :: Before(encode, jobs[i], jobs[j])
  }

  /** Jobs in this order are determined by what they are, not by how they were found. */
  lemma {:induction false} OrderIsUnique(encode: Encoding, a: seq<Job>, b: seq<Job>)
    requires Injective(encode) && Ordered(encode, a) && Ordered(encode, b)
    requires forall job :: job in a <==> job in b
    ensures a == b
  {
    if a != [] && b != [] {
      FirstIsFirst(encode, a, b);
      forall job ensures job in a[1..] <==> job in b[1..] {
        NotAgain(encode, a, job);
        NotAgain(encode, b, job);
      }
      OrderIsUnique(encode, a[1..], b[1..]);
      assert a == [a[0]] + a[1..] && b == [b[0]] + b[1..];
    } else {
      BothEmpty(a, b);
    }
  }

  lemma FirstIn(jobs: seq<Job>)
    requires jobs != []
    ensures jobs[0] in jobs
  {
  }

  lemma BothEmpty(a: seq<Job>, b: seq<Job>)
    requires a == [] || b == []
    requires forall job :: job in a <==> job in b
    ensures a == b
  {
    if a != [] { FirstIn(a); }
    if b != [] { FirstIn(b); }
  }

  lemma FirstIsFirst(encode: Encoding, a: seq<Job>, b: seq<Job>)
    requires Injective(encode) && Ordered(encode, a) && Ordered(encode, b) && a != [] && b != []
    requires forall job :: job in a <==> job in b
    ensures a[0] == b[0]
  {
    assert a[0] in b && b[0] in a;
    if a[0] != b[0] {
      assert Before(encode, a[0], b[0]) && Before(encode, b[0], a[0]);
      BeforeTrichotomy(encode, a[0], b[0]);
    }
  }

  lemma NotAgain(encode: Encoding, jobs: seq<Job>, job: Job)
    requires Ordered(encode, jobs) && jobs != []
    ensures job in jobs[1..] <==> job in jobs && job != jobs[0]
  {
    if jobs[0] in jobs[1..] {
      var i :| 0 <= i < |jobs| - 1 && jobs[1..][i] == jobs[0];
      assert Before(encode, jobs[0], jobs[i + 1]);
      LexTrichotomy(encode(jobs[0].key), encode(jobs[0].key));
      assert false;
    }
    assert jobs == [jobs[0]] + jobs[1..];
  }

  /** `sort.Slice` by (due, key). */
  function Sort(encode: Encoding, jobs: seq<Job>): seq<Job> {
    if jobs == [] then [] else Insert(encode, Sort(encode, jobs[1..]), jobs[0])
  }

  function Insert(encode: Encoding, jobs: seq<Job>, job: Job): seq<Job> {
    if jobs == [] || Before(encode, job, jobs[0]) then [job] + jobs else [jobs[0]] + Insert(encode, jobs[1..], job)
  }

  lemma {:induction false} InsertOrders(encode: Encoding, jobs: seq<Job>, job: Job)
    requires Injective(encode) && Ordered(encode, jobs) && job !in jobs
    ensures Ordered(encode, Insert(encode, jobs, job))
    ensures forall j :: j in Insert(encode, jobs, job) <==> j in jobs || j == job
  {
    if jobs == [] {
    } else if Before(encode, job, jobs[0]) {
      forall j | 0 < j < |jobs| ensures Before(encode, job, jobs[j]) {
        BeforeTransitive(encode, job, jobs[0], jobs[j]);
      }
    } else {
      BeforeTrichotomy(encode, job, jobs[0]);
      var rest := Insert(encode, jobs[1..], job);
      InsertOrders(encode, jobs[1..], job);
      assert jobs == [jobs[0]] + jobs[1..];
      forall j | 0 <= j < |rest| ensures Before(encode, jobs[0], rest[j]) { assert rest[j] in rest; }
    }
  }

  predicate Distinct(jobs: seq<Job>) {
    forall i, j | 0 <= i < j < |jobs| :: jobs[i] != jobs[j]
  }

  lemma {:induction false} SortOrders(encode: Encoding, jobs: seq<Job>)
    requires Injective(encode) && Distinct(jobs)
    ensures Ordered(encode, Sort(encode, jobs))
    ensures forall job :: job in Sort(encode, jobs) <==> job in jobs
  {
    if jobs != [] {
      SortOrders(encode, jobs[1..]);
      assert jobs == [jobs[0]] + jobs[1..];
      InsertOrders(encode, Sort(encode, jobs[1..]), jobs[0]);
    }
  }

  /** The readings that `nextRefreshLocked` takes, one for each key; none lies before the pass's own. */
  type Clock = Key -> Time

  ghost predicate ClockAfter(now: Time, clock: Clock) {
    forall k :: now <= clock(k)
  }

  /** The jobs that a pass of the scheduler must visit. */
  predicate IsDueJob(s: State, now: Time, clock: Clock, job: Job) {
    && (job.key in s.current || job.key in s.refreshRequests)
    && job.due == NextRefresh(s, job.key, clock(job.key)) && job.due <= now
  }

  /** `refreshDue` up to its visits: whatever order the keys come in, it collects exactly the keys that its
      readings of the clock make due, and visits them in the one order by (due, key). */
  method DueJobs(s: State, now: Time, clock: Clock, encode: Encoding) returns (jobs: seq<Job>)
    requires Injective(encode)
    ensures Ordered(encode, jobs)
    ensures forall job :: job in jobs <==> IsDueJob(s, now, clock, job)
  {
    hide NextRefresh, Before, Sort, Injective, Ordered;
    var found: seq<Job> := [];
    var keys := s.current.Keys + s.refreshRequests.Keys;
    while keys != {}
      invariant keys <= s.current.Keys + s.refreshRequests.Keys
      invariant Distinct(found)
      invariant forall job :: job in found <==> IsDueJob(s, now, clock, job) && job.key !in keys
      decreases |keys|
    {
      var k :| k in keys;
      var due := NextRefresh(s, k, clock(k));
      if due <= now {
        found := found + [Job(k, due)];
      }
      keys := keys - {k};
    }
    SortOrders(encode, found);
    jobs := Sort(encode, found);
  }

  /** A pass over reachable states collects a pending key exactly if its reading of the clock is the pass's own
      and the gate is open; a key with a held state and nothing pending whatever the readings, exactly if
      the gate is open and the state is not dated ahead; and in error-only mode nothing else. */
  lemma CollectedExactly(s: State, now: Time, clock: Clock, k: Key)
    requires Inv(s) && s.config.probe.enabled && ClockAfter(now, clock) && (k in s.current || k in s.refreshRequests)
    ensures var collected := IsDueJob(s, now, clock, Job(k, NextRefresh(s, k, clock(k))));
            && (k in s.refreshRequests ==> (collected <==> clock(k) == now && Due(s, now, k)))
            && (k !in s.refreshRequests ==> (collected <==> Due(s, now, k) && !DatedAhead(s, now, k)))
            && (k !in s.refreshRequests && EnabledByDefault(s.config.probe.probeOnErrorsOnly) ==> !collected)
  {
    hide Due, DatedAhead, Inv;
    var reading := clock(k);
    assert now <= reading;
    if k in s.refreshRequests {
      PendingNeedsOneReading(s, now, reading, k);
    } else {
      HoldsInReach(s, k);
      HeldReadsAlike(s, k, now, reading);
      SchedulerAgreesWithGate(s, now, k);
    }
  }

  /** A cached state of a reachable state is not empty. */
  lemma HoldsInReach(s: State, k: Key)
    requires Inv(s) && k in s.current
    ensures Holds(s, k)
  {
    hide ConfigOk, RequestsOk, TasksOk, FlightsOk, NormalBlocks;
    assert Allowed(s.config, k, s.current[k]);
  }

  lemma HeldReadsAlike(s: State, k: Key, now: Time, reading: Time)
    requires k !in s.refreshRequests && Holds(s, k) && now <= reading
    ensures NextRefresh(s, k, reading) <= now <==> NextRefresh(s, k, now) <= now
    ensures !EnabledByDefault(s.config.probe.probeOnErrorsOnly) ==> NextRefresh(s, k, reading) == NextRefresh(s, k, now)
    ensures EnabledByDefault(s.config.probe.probeOnErrorsOnly) ==> NextRefresh(s, k, reading) > now
  {
    hide Seconds;
  }

  /** Two passes over one state, each with its own iteration order and readings of the clock, make the same visits
      in the same order if they agree on which pending keys read the pass's own time. */
  lemma VisitsAreDetermined(s: State, now: Time, c1: Clock, c2: Clock, encode: Encoding, a: seq<Job>, b: seq<Job>)
    requires Inv(s) && Injective(encode) && Ordered(encode, a) && Ordered(encode, b)
    requires ClockAfter(now, c1) && ClockAfter(now, c2)
    requires forall k :: k in s.refreshRequests ==> (c1(k) == now <==> c2(k) == now)
    requires forall job :: job in a <==> IsDueJob(s, now, c1, job)
    requires forall job :: job in b <==> IsDueJob(s, now, c2, job)
    ensures a == b
  {
    hide Ordered, Inv, IsDueJob;
    forall job ensures IsDueJob(s, now, c1, job) <==> IsDueJob(s, now, c2, job) {
      SameJob(s, now, c1, c2, job);
    }
    OrderIsUnique(encode, a, b);
  }

  lemma SameJob(s: State, now: Time, c1: Clock, c2: Clock, job: Job)
    requires Inv(s) && ClockAfter(now, c1) && ClockAfter(now, c2)
    requires job.key in s.refreshRequests ==> (c1(job.key) == now <==> c2(job.key) == now)
    ensures IsDueJob(s, now, c1, job) <==> IsDueJob(s, now, c2, job)
  {
    hide Inv, Holds, Due;
    var k := job.key;
    if k in s.refreshRequests {
      assert now <= c1(k) && now <= c2(k);
      PendingNeedsOneReading(s, now, c1(k), k);
      PendingNeedsOneReading(s, now, c2(k), k);
      hide NextRefresh;
    } else if k in s.current {
      HoldsInReach(s, k);
      assert now <= c1(k) && now <= c2(k);
      HeldReadsAlike(s, k, now, c1(k));
      HeldReadsAlike(s, k, now, c2(k));
      hide NextRefresh;
    }
  }
}
