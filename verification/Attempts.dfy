/** The retry loop of `ensureProbe`: which proxies one probe tries, and how it ends. */
module Attempts {
  import opened Wrappers
  import opened Policy
  import opened Machine
  import Fernet

  /** What the loop meets at each offset: the shared deadline, a cooling proxy, the answer of a fetch. */
  datatype World = World(expired: nat -> bool, cooling: nat -> bool, value: nat -> string, verdict: nat -> Verdict)

  /** One turn of the loop, taken by the steps of the machine. */
  function Turn(w: World, task: Task): Task
    requires MayPick(task)
  {
    var picked := Picked(task, w.cooling(task.offset));
    if w.cooling(task.offset) then picked else Landed(picked, w.value(task.offset), w.verdict(task.offset))
  }

  predicate GoesAround(w: World, task: Task) {
    MayPick(task) && !w.expired(task.offset)
  }

  /** The probe when the loop is over. */
  function LoopEnd(w: World, task: Task): Task
    decreases |task.config.probe.pool| - task.offset
  {
    if GoesAround(w, task) then LoopEnd(w, Turn(w, task)) else task
  }

  /** The pool entries that fetches went through, in order. */
  function Tried(w: World, task: Task): seq<nat>
    decreases |task.config.probe.pool| - task.offset
  {
    if !GoesAround(w, task) then []
    else (if w.cooling(task.offset) then [] else [EndpointOf(task)]) + Tried(w, Turn(w, task))
  }

  /** The loop with its local variables, as `ensureProbe` has it. */
  method RunLoop(w: World, task: Task) returns (end: Task)
    requires task.phase == Looping && task.offset == 0 && task.attempts == 0
    ensures end == LoopEnd(w, task)
  {
    hide Fernet.Parse, NormalBlocks, AccountFailure, Seconds;
    var pool := |task.config.probe.pool|;
    var offset, attempts, outcome, candidate, leaving := 0, 0, task.outcome, task.candidate, false;
    ghost var now := task;
    while offset < pool && attempts < task.config.probe.maxAttempts && !w.expired(offset) && !leaving
      invariant 0 <= attempts <= offset <= pool
      invariant now == task.(offset := offset, attempts := attempts, outcome := outcome, candidate := candidate,
                             phase := if leaving then Leaving else Looping)
      invariant LoopEnd(w, now) == LoopEnd(w, task)
      decreases pool - offset
    {
      ghost var before := now;
      now := Turn(w, now);
      if w.cooling(offset) {
        offset := offset + 1;
        continue;
      }
      var at := offset;
      offset, attempts := offset + 1, attempts + 1;
      match w.verdict(at)
      case Refused(status) =>
        outcome := Refusal(status);
        leaving := AccountFailure(status);
      case Delivered =>
        var parsed := Fernet.Parse(w.value(at), task.config.maxStateBytes);
        if parsed.Bad? || !NormalBlocks(task.policy, parsed.info.blocks)
           || Seconds(parsed.info.issuedAt) > task.startedAt + SKEW
           || task.startedAt >= Seconds(parsed.info.issuedAt) + TTL {
          outcome := StateRejected;
        } else {
          outcome := Accepted;
          candidate := Some(Stored(w.value(at), Seconds(parsed.info.issuedAt), parsed.info.blocks));
          leaving := true;
        }
    }
    end := task.(offset := offset, attempts := attempts, outcome := outcome, candidate := candidate,
                 phase := if leaving then Leaving else Looping);
  }

  // ----- which proxies are tried -----

  lemma DifferentEntries(cursor: nat, n: nat, a: nat, b: nat)
    requires a < b < a + n
    ensures EntryAt(cursor, n, a) != EntryAt(cursor, n, b)
  {
    var x, y := cursor + a, cursor + b;
    var q := y / n - x / n;
    Multiples(q, n);
    assert x == (x / n) * n + x % n && y == (y / n) * n + y % n;
    assert (y / n) * n - (x / n) * n == q * n;
  }

  /** No multiple lies strictly between 0 and n. */
  lemma Multiples(q: int, n: nat)
    ensures q * n <= 0 || q * n >= n
  {
  }

  lemma TurnAdvances(w: World, task: Task)
    requires MayPick(task)
    ensures var after := Turn(w, task);
            && after.offset == task.offset + 1 && after.config == task.config && after.cursor == task.cursor
            && after.attempts == task.attempts + if w.cooling(task.offset) then 0 else 1
  {
    hide ProbeCandidate, AccountFailure, EndpointOf;
  }

  predicate AheadOf(task: Task, x: nat) {
    exists o: nat :: task.offset <= o < |task.config.probe.pool|
        && x == EntryAt(task.cursor, |task.config.probe.pool|, o)
  }

  lemma NearerAhead(task: Task, after: Task, x: nat)
    requires after.offset == task.offset + 1 && after.config == task.config && after.cursor == task.cursor
    requires AheadOf(after, x)
    ensures AheadOf(task, x)
  {
    hide EntryAt;
  }

  lemma NextAhead(task: Task)
    requires MayPick(task)
    ensures AheadOf(task, EndpointOf(task))
  {
    hide EntryAt;
  }

  lemma {:induction false} TriedAhead(w: World, task: Task, x: nat)
    requires x in Tried(w, task)
    ensures AheadOf(task, x)
    decreases |task.config.probe.pool| - task.offset
  {
    hide Turn, AheadOf, EndpointOf;
    TurnAdvances(w, task);
    if x in Tried(w, Turn(w, task)) {
      TriedAhead(w, Turn(w, task), x);
      NearerAhead(task, Turn(w, task), x);
    } else {
      NextAhead(task);
    }
  }

  /** One probe goes through no pool entry twice, and through at most `MaxAttempts` of them. */
  lemma {:induction false} TriedOnce(w: World, task: Task)
    ensures var tried := Tried(w, task);
            && (forall i, j :: 0 <= i < j < |tried| ==> tried[i] != tried[j])
            && task.attempts + |tried| == LoopEnd(w, task).attempts
            && (task.attempts <= task.config.probe.maxAttempts ==>
                LoopEnd(w, task).attempts <= task.config.probe.maxAttempts)
    decreases |task.config.probe.pool| - task.offset
  {
    hide Turn, EndpointOf;
    if GoesAround(w, task) {
      TurnAdvances(w, task);
      var later := Tried(w, Turn(w, task));
      TriedOnce(w, Turn(w, task));
      if !w.cooling(task.offset) {
        forall j | 0 <= j < |later| ensures EndpointOf(task) != later[j] { FirstDiffers(w, task, later[j]); }
      }
    }
  }

  lemma FirstDiffers(w: World, task: Task, x: nat)
    requires GoesAround(w, task) && x in Tried(w, Turn(w, task))
    ensures x != EndpointOf(task)
  {
    hide Turn, Tried, AheadOf;
    TurnAdvances(w, task);
    TriedAhead(w, Turn(w, task), x);
    NotAgain(task, Turn(w, task), x);
  }

  lemma NotAgain(task: Task, after: Task, x: nat)
    requires MayPick(task) && after.offset == task.offset + 1 && after.config == task.config
             && after.cursor == task.cursor
    requires AheadOf(after, x)
    ensures x != EndpointOf(task)
  {
    hide EntryAt;
    var n := |task.config.probe.pool|;
    var o: nat :| after.offset <= o < n && x == EntryAt(task.cursor, n, o);
    DifferentEntries(task.cursor, n, task.offset, o);
  }

  // ----- which answers end the loop -----

  /** The value is a token of a normal size for the policy that the probe started with, dated at most five minutes
      after that start and less than an hour old then. */
  predicate Acceptable(task: Task, value: string) {
    var parsed := Fernet.Parse(value, task.config.maxStateBytes);
    && parsed.Ok? && NormalBlocks(task.policy, parsed.info.blocks)
    && Seconds(parsed.info.issuedAt) - Seconds(300) <= task.startedAt < Seconds(parsed.info.issuedAt) + Seconds(3600)
  }

  function StateOf(task: Task, value: string): Stored
    requires Acceptable(task, value)
  {
    var info := Fernet.Parse(value, task.config.maxStateBytes).info;
    Stored(value, Seconds(info.issuedAt), info.blocks)
  }

  lemma AcceptableIsKept(task: Task, value: string)
    ensures ProbeCandidate(task, value).Some? <==> Acceptable(task, value)
    ensures Acceptable(task, value) ==> ProbeCandidate(task, value).value == StateOf(task, value)
  {
    hide Fernet.Parse, NormalBlocks;
  }

  // ----- how the loop ends -----

  /** The answer at offset o is a state that the probe may keep. */
  predicate Keeps(w: World, task: Task, o: nat, st: Stored) {
    !w.cooling(o) && w.verdict(o).Delivered? && ProbeCandidate(task, w.value(o)) == Some(st)
  }

  lemma TurnKeeps(w: World, task: Task)
    requires MayPick(task) && task.candidate.None?
    ensures var after := Turn(w, task);
            && (after.candidate.Some? ==> after.phase == Leaving && Keeps(w, task, task.offset, after.candidate.value))
            && (after.candidate.None? ==> forall st :: !Keeps(w, task, task.offset, st))
            && (after.phase == Looping || after.phase == Leaving)
  {
    hide Fernet.Parse, NormalBlocks, AccountFailure, EndpointOf;
  }

  lemma SameJudge(w: World, task: Task, o: nat, st: Stored)
    requires MayPick(task)
    ensures Keeps(w, Turn(w, task), o, st) == Keeps(w, task, o, st)
  {
    hide Fernet.Parse, NormalBlocks, AccountFailure, EndpointOf;
  }

  /** The loop keeps the first acceptable answer and stops at it; without a candidate at the end, no answer
      it got was acceptable. */
  lemma {:induction false} FirstAcceptableWins(w: World, task: Task)
    requires task.phase == Looping && task.candidate.None? && task.offset <= |task.config.probe.pool|
    ensures var end := LoopEnd(w, task);
            && task.offset <= end.offset
            && (forall o: nat, st | task.offset <= o < end.offset && Keeps(w, task, o, st) :: o == end.offset - 1)
            && (end.candidate.Some? ==> end.offset > task.offset && Keeps(w, task, end.offset - 1, end.candidate.value))
            && (end.candidate.None? ==> forall o: nat, st | task.offset <= o < end.offset :: !Keeps(w, task, o, st))
    decreases |task.config.probe.pool| - task.offset
  {
    hide Turn, Keeps;
    if GoesAround(w, task) {
      var after := Turn(w, task);
      TurnAdvances(w, task);
      TurnKeeps(w, task);
      forall o: nat, st ensures Keeps(w, after, o, st) == Keeps(w, task, o, st) { SameJudge(w, task, o, st); }
      if after.phase == Looping {
        FirstAcceptableWins(w, after);
      } else {
        assert LoopEnd(w, after) == after;
      }
    }
  }

  /** The answer at offset o ends the loop: a failure of the account, or a state that the probe may keep. */
  predicate Stops(w: World, task: Task, o: nat) {
    !w.cooling(o) &&
    match w.verdict(o)
    case Refused(status) => AccountFailure(status)
    case Delivered => Acceptable(task, w.value(o))
  }

  lemma TurnStops(w: World, task: Task)
    requires MayPick(task)
    ensures Turn(w, task).phase == if Stops(w, task, task.offset) then Leaving else Looping
  {
    var picked := Picked(task, w.cooling(task.offset));
    AcceptableIsKept(picked, w.value(task.offset));
    assert Acceptable(picked, w.value(task.offset)) == Acceptable(task, w.value(task.offset));
    hide Acceptable, ProbeCandidate, AccountFailure, EndpointOf;
  }

  lemma SameStops(w: World, task: Task, o: nat)
    requires MayPick(task)
    ensures Stops(w, Turn(w, task), o) == Stops(w, task, o)
  {
    hide Fernet.Parse, NormalBlocks, AccountFailure, EndpointOf;
  }

  /** Why the loop is where it is at its end. */
  predicate EndedWell(w: World, task: Task, end: Task) {
    && task.offset <= end.offset
    && (forall o: nat | task.offset <= o < end.offset - 1 :: !Stops(w, task, o))
    && (end.phase == Leaving ==> end.offset > task.offset && Stops(w, task, end.offset - 1))
    && (end.phase != Leaving ==>
          && end.phase == Looping && (forall o: nat | task.offset <= o < end.offset :: !Stops(w, task, o))
          && (w.expired(end.offset) || end.attempts >= task.config.probe.maxAttempts
              || end.offset == |task.config.probe.pool|))
  }

  lemma EndedEarlier(w: World, task: Task, after: Task, end: Task)
    requires EndedWell(w, after, end) && after.offset == task.offset + 1 && after.config == task.config
    requires forall o: nat :: Stops(w, after, o) == Stops(w, task, o)
    requires !Stops(w, task, task.offset)
    ensures EndedWell(w, task, end)
  {
    hide Stops;
  }

  /** The loop goes on after every other answer: it ends at the first that stops it, and without one only when the
      deadline has passed, all attempts are used up, or the pool is. */
  lemma {:induction false} EndsOnlyFor(w: World, task: Task)
    requires task.phase == Looping && task.offset <= |task.config.probe.pool|
    ensures EndedWell(w, task, LoopEnd(w, task))
    decreases |task.config.probe.pool| - task.offset
  {
    hide Turn, Stops;
    if GoesAround(w, task) {
      var after := Turn(w, task);
      TurnAdvances(w, task);
      TurnStops(w, task);
      if after.phase == Looping {
        forall o: nat ensures Stops(w, after, o) == Stops(w, task, o) { SameStops(w, task, o); }
        EndsOnlyFor(w, after);
        EndedEarlier(w, task, after, LoopEnd(w, after));
      } else {
        assert LoopEnd(w, task) == LoopEnd(w, after) == after;
        assert EndedWell(w, task, after);
      }
    } else {
      assert LoopEnd(w, task) == task;
      assert EndedWell(w, task, task);
    }
  }
}
