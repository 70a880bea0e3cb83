/** The state file over whole runs. */
module Persistence {
  import opened Text
  import opened Wrappers
  import opened Policy
  import opened Machine
  import opened Frames
  import opened Invariant
  import opened Freshness
  import Fernet

  // ----- the order of the snapshots -----

  /** A snapshot is taken, by a probe or by a completion or clear: the lock is free, and the writer's path is
      the configured one. */
  predicate Opens(s: State, e: Event) {
    || (e.act.Snapshot? && s.writer.None? && e.act.path != "" && e.act.path == s.config.stateFile)
    || (e.act.Persist? && Persists(s, e.act.task) && s.tasks[e.act.task].phase.path == s.config.stateFile)
  }

  predicate OpensAt(s: State, e: Event, path: string) {
    Opens(s, e) && path == s.config.stateFile
  }

  /** The file at path is replaced. */
  predicate ReplacesAt(s: State, e: Event, path: string) {
    e.act == Write(true) && s.writer.Some? && s.writer.value.path == path
  }

  /** The event that took the snapshot of the writer at work. */
  function OpenedAt(es: seq<Event>, n: nat): nat
    requires n <= |es|
  {
    if n == 0 then 0
    else if Opens(At(es, n - 1), es[n - 1]) then n - 1
    else OpenedAt(es, n - 1)
  }

  /** The event whose snapshot the file at path holds, if it was written at all. */
  function HeldFrom(es: seq<Event>, n: nat, path: string): Option<nat>
    requires n <= |es|
  {
    if n == 0 then None
    else if ReplacesAt(At(es, n - 1), es[n - 1], path) then Some(OpenedAt(es, n - 1))
    else HeldFrom(es, n - 1, path)
  }

  lemma SnapshotParts(s: State, path: string)
    ensures SnapshotStep(s, path).writer
         == if s.writer.None? && path != "" && path == s.config.stateFile then Some(Writer(path, s.current, None))
            else s.writer
  {
  }

  lemma WriterStep(s: State, e: Event)
    ensures var s' := Step(s, e);
            s'.writer == if Opens(s, e)
                         then Some(Writer(s.config.stateFile, s.current,
                                          if e.act.Persist? then Some(e.act.task) else None))
                         else if e.act.Write? then None else s.writer
  {
    hide Step, SnapshotStep, PersistStep, WriteStep;
    if e.act.Persist? {
      StepIs(s, e);
      PersistParts(s, e.act.task);
    } else if e.act.Snapshot? {
      StepIs(s, e);
      SnapshotParts(s, e.act.path);
    } else if e.act.Write? {
      StepIs(s, e);
      WriteParts(s, e.act.ok);
    } else {
      WriterKept(s, e);
    }
  }

  lemma DiskStep(s: State, e: Event, path: string)
    ensures var s' := Step(s, e);
            && (path in s'.disk <==> ReplacesAt(s, e, path) || path in s.disk)
            && (path in s'.disk ==>
                  s'.disk[path] == if ReplacesAt(s, e, path) then s.writer.value.snapshot else s.disk[path])
  {
    hide Step, WriteStep;
    if e.act.Write? {
      StepIs(s, e);
      WriteParts(s, e.act.ok);
    } else {
      DiskKept(s, e);
    }
  }

  /** A writer at work holds what the cache was when its snapshot was taken. */
  lemma {:induction false} WriterHoldsSnapshot(es: seq<Event>, n: nat)
    requires n <= |es| && At(es, n).writer.Some?
    ensures var j, w := OpenedAt(es, n), At(es, n).writer.value;
            j < n && OpensAt(At(es, j), es[j], w.path) && w.snapshot == At(es, j).current
    ensures forall m :: OpenedAt(es, n) < m < n ==> !es[m].act.Write?
  {
    hide Step;
    assert n > 0;
    WriterStep(At(es, n - 1), es[n - 1]);
    if !Opens(At(es, n - 1), es[n - 1]) {
      WriterHoldsSnapshot(es, n - 1);
    }
  }

  lemma {:induction false} OpenedNotAfter(es: seq<Event>, n: nat)
    requires n <= |es|
    ensures OpenedAt(es, n) <= n && (n > 0 ==> OpenedAt(es, n) < n)
    ensures n > 0 ==> OpenedAt(es, n - 1) <= OpenedAt(es, n)
  {
    hide At, Opens;
    if n > 0 {
      OpenedNotAfter(es, n - 1);
    }
  }

  /** The file at path holds exactly the cache of the moment its snapshot was taken. */
  lemma {:induction false} FileIsSnapshot(es: seq<Event>, n: nat, path: string)
    requires n <= |es|
    ensures var j := HeldFrom(es, n, path);
            && (path in At(es, n).disk <==> j.Some?)
            && (j.Some? ==> j.value < n && OpensAt(At(es, j.value), es[j.value], path)
                            && At(es, n).disk[path] == At(es, j.value).current)
  {
    hide Step, Opens;
    if n > 0 {
      FileIsSnapshot(es, n - 1, path);
      DiskStep(At(es, n - 1), es[n - 1], path);
      if ReplacesAt(At(es, n - 1), es[n - 1], path) {
        WriterHoldsSnapshot(es, n - 1);
      }
    }
  }

  lemma {:induction false} HeldNotAfterOpened(es: seq<Event>, n: nat, path: string)
    requires n <= |es| && HeldFrom(es, n, path).Some?
    ensures HeldFrom(es, n, path).value <= OpenedAt(es, n)
  {
    hide At, ReplacesAt, Opens;
    OpenedNotAfter(es, n);
    if !ReplacesAt(At(es, n - 1), es[n - 1], path) {
      HeldNotAfterOpened(es, n - 1, path);
    }
  }

  /** However many writers are interleaved, snapshots reach the file in the order they were taken. */
  lemma {:induction false} DiskNeverGoesBack(es: seq<Event>, m: nat, n: nat, path: string)
    requires m <= n <= |es| && HeldFrom(es, m, path).Some?
    ensures HeldFrom(es, n, path).Some? && HeldFrom(es, m, path).value <= HeldFrom(es, n, path).value
  {
    hide At, ReplacesAt, Opens;
    if m < n {
      DiskNeverGoesBack(es, m, n - 1, path);
      HeldNotAfterOpened(es, n - 1, path);
    }
  }

  /** Once every change of the cache has been followed by a finished, error-free persist, the file equals
      the cache: j is a snapshot, m its write, and the cache is as it was at j. */
  lemma FileCatchesUp(es: seq<Event>, j: nat, m: nat, n: nat, path: string)
    requires j < m < n <= |es| && OpensAt(At(es, j), es[j], path) && es[m].act == Write(true)
    requires forall i :: j < i < m ==> !es[i].act.Write?
    requires forall i :: j <= i <= n ==> At(es, i).current == At(es, j).current
    ensures path in At(es, n).disk && At(es, n).disk[path] == At(es, n).current
  {
    hide At, Opens, OpenedAt, ReplacesAt, HeldFrom;
    WriterWaits(es, j, m, path);
    WriteReplaces(es, m, path);
    DiskNeverGoesBack(es, m + 1, n, path);
    FileIsSnapshot(es, n, path);
  }

  /** One persist, whoever runs it and whatever is configured meanwhile: when it ends the file at its path holds
      the cache of the moment of its snapshot, or what it held before if the write failed. */
  lemma PersistEnds(es: seq<Event>, j: nat, m: nat)
    requires j < m < |es| && Opens(At(es, j), es[j]) && es[m].act.Write?
    requires forall i :: j < i < m ==> !es[i].act.Write?
    ensures var path := At(es, j).config.stateFile;
            && At(es, m + 1).writer.None?
            && (es[m].act.ok ==> At(es, m + 1).disk == At(es, m).disk[path := At(es, j).current])
            && (!es[m].act.ok ==> At(es, m + 1).disk == At(es, m).disk)
  {
    hide At, Opens, OpenedAt, WriteStep, Step;
    var path := At(es, j).config.stateFile;
    WriterWaits(es, j, m, path);
    WriterHoldsSnapshot(es, m);
    AtNext(es, m);
    StepIs(At(es, m), es[m]);
    WriteParts(At(es, m), es[m].act.ok);
  }

  lemma WriteReplaces(es: seq<Event>, m: nat, path: string)
    requires m < |es| && es[m].act == Write(true) && At(es, m).writer.Some? && At(es, m).writer.value.path == path
    ensures HeldFrom(es, m + 1, path) == Some(OpenedAt(es, m))
  {
    hide At;
  }

  lemma {:induction false} WriterWaits(es: seq<Event>, j: nat, m: nat, path: string)
    requires j < m <= |es| && OpensAt(At(es, j), es[j], path)
    requires forall i :: j < i < m ==> !es[i].act.Write?
    ensures At(es, m).writer.Some? && At(es, m).writer.value.path == path && OpenedAt(es, m) == j
  {
    hide Step;
    WriterStep(At(es, m - 1), es[m - 1]);
    if m > j + 1 {
      WriterWaits(es, j, m - 1, path);
    }
  }

  // ----- reading the file back -----

  /** What the state file keeps of an entry: time and size are read from the token again. */
  function Values(states: map<Key, Stored>): map<Key, string> {
    map k | k in states :: states[k].value
  }

  lemma GenuineIsRead(st: Stored, limit: int)
    requires Genuine(st)
    ensures var parsed := Fernet.Parse(st.value, limit);
            && (parsed.Ok? <==> |Trim(st.value)| <= limit)
            && (parsed.Ok? ==> st == Stored(st.value, Seconds(parsed.info.issuedAt), parsed.info.blocks))
  {
    Fernet.ReadableIffFits(st.value, MAX_STATE_BYTES, limit);
    hide Fernet.Parse, Trim, Seconds;
  }

  /** Loading a written file returns exactly the entries that fit the limit in force, unchanged. */
  lemma LoadReturnsSaved(states: map<Key, Stored>, limit: int, k: Key)
    requires forall j :: j in states ==> Genuine(states[j])
    ensures k in Load(Values(states), limit) <==> k in states && |Trim(states[k].value)| <= limit
    ensures k in Load(Values(states), limit) ==> Load(Values(states), limit)[k] == states[k]
  {
    if k in states { GenuineIsRead(states[k], limit); }
    hide Fernet.Parse, Trim, Genuine, Seconds;
  }

  lemma ReachableGenuine(es: seq<Event>, n: nat)
    requires n <= |es|
    ensures forall k :: k in At(es, n).current ==> Genuine(At(es, n).current[k])
  {
    Reachable(es, n);
    hide At, ConfigOk, RequestsOk, TasksOk, FlightsOk, Genuine, NormalBlocks;
    forall k | k in At(es, n).current ensures Genuine(At(es, n).current[k]) {
      assert Allowed(At(es, n).config, k, At(es, n).current[k]);
    }
  }

  /** The first event of a new runtime: it is configured with what the file holds. */
  function Restart(at: Time, raw: RawConfig, saved: map<Key, Stored>): seq<Event> {
    [Event(at, Configure(raw, Entries(Values(saved))))]
  }

  lemma Restarted(at: Time, raw: RawConfig, saved: map<Key, Stored>)
    requires Accepts(raw, Entries(Values(saved)))
    ensures var s := At(Restart(at, raw, saved), 1);
            && s.config == Prepare(raw).value && s.accepting == s.config.enabled
            && s.current == Configured(s.config, Entries(Values(saved)), map[])
  {
    hide Step, ConfigureStep, Prepare, Configured, Values, Accepts;
    StepIs(INIT, Restart(at, raw, saved)[0]);
    ConfiguredParts(INIT, raw, Entries(Values(saved)));
  }

  /** A restart: a new runtime whose first configuration reads the file of an earlier run has every entry of
      that file which fits its limit and which its policies cover, unless the configuration seeds a
      state at least as new; and nothing else but seeds. */
  lemma RestartRestores(es: seq<Event>, n: nat, path: string, at: Time, raw: RawConfig, k: Key)
    requires n <= |es| && path in At(es, n).disk && Accepts(raw, Entries(Values(At(es, n).disk[path])))
    ensures var saved := At(es, n).disk[path];
            var again := At(Restart(at, raw, saved), 1);
            var cfg := again.config;
            && cfg == Prepare(raw).value
            && (k in saved && |Trim(saved[k].value)| <= cfg.maxStateBytes && InScope(cfg, k, saved[k])
                && (HasSeed(cfg, k) ==> SeedOf(cfg, k).issuedAt < saved[k].issuedAt) ==>
                  k in again.current && again.current[k] == saved[k])
            && (k in again.current && !HasSeed(cfg, k) ==> k in saved && again.current[k] == saved[k])
  {
    var saved := At(es, n).disk[path];
    hide Step, At, Prepare, InScope, HasSeed, SeedOf, Configured, Load, Genuine, Trim, Opens, HeldFrom, Values,
      Restart, Accepts;
    Restarted(at, raw, saved);
    AcceptedIsPrepared(raw, Entries(Values(saved)));
    var cfg := Prepare(raw).value;
    FileIsSnapshot(es, n, path);
    ReachableGenuine(es, HeldFrom(es, n, path).value);
    LoadReturnsSaved(saved, cfg.maxStateBytes, k);
    ConfiguredIsNewest(cfg, Entries(Values(saved)), map[], k);
  }

  lemma AcceptedIsPrepared(raw: RawConfig, file: FileView)
    requires Accepts(raw, file)
    ensures Prepare(raw).Some?
  {
    hide Prepare;
  }
}
