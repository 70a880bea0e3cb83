# Verification of the turn-state plugin

This project models the runtime of the Codex turn-state plugin in Dafny 4.11 and proves what its hooks, probes,
worker, management actions and reconfigurations keep, over every interleaving. `dafny verify dfyconfig.toml` checks
all of it.

## What is modelled

**The runtime as a step machine** (`Policy.dfy`, `Machine.dfy`). One `State` holds what the mutex protects; one step
is one mutex section, or one move of a goroutine between two of its sections. `ensureProbe` is a start (`BeginStep`),
the answer of the host (`ResolveStep`), the head and the end of every attempt (`PickStep`, `LandStep`), the last
section (`FinishStep`), the persist of a promotion (`PersistStep`) and the note of its failure (`NoteFailureStep`);
each probe at work is a `Task` that carries its snapshot of configuration, policy, generation and clock.
`interceptAfter` is `DetachStep` and `BindStep`/`InjectionOf`, so a probe and everything else can come between the
two. `persistCurrent` is a snapshot (`PersistStep` of a probe, `SnapshotStep` of a completion or clear) and
`WriteStep` under its own lock. A run is any sequence of events; `At(es, n)` is the state after n of them. Fetch
results, host answers, stream chunks, headers, configurations, file contents and clock readings are arbitrary
parameters of the events. Theorems that speak of durations assume `ClockOk`: the clock does not go back.

**The same runtime as the source writes it** (`Runtime.dfy`). The class `RuntimeState` has the source's fields; its
methods have the source's branches, early returns and loops, and each section is proved to take the whole object from
one state of the machine to the next: `View() == ...Step(old(View()), ...)`. `Run` performs any sequence of events and
ends in `At(es, |es|)`, so what is proved of the runs of the machine holds of the object. `Attempts.dfy` does the same
for the local retry loop of `ensureProbe`, `Scheduler.dfy` for the pass of the worker.

**The theorems over runs**: `Invariant.dfy` (what every reachable state satisfies), `Probes.dfy` (slots and generation
fence), `Rates.dfy` (spacing, fetch counts, back-off), `Freshness.dfy` (freshness, confluence, pending refreshes),
`Requests.dfy` (attempt isolation), `Endings.dfy` (how a probe's loop goes on and ends), `Signals.dfy` (what makes a
refresh pending), `Starts.dfy` (when a probe starts), `Captures.dfy` (what a response leaves in the cache),
`Answers.dfy` (what a request is given), `Clears.dfy` (what a clear leaves), `Settings.dfy` (which configurations are
taken and what they mean), `Streams.dfy` (which failures of a stream are seen), `Alias.dfy` (a run against a comment),
`Injection.dfy` (where injected values come from, what a clear spares), `Persistence.dfy` (the state file).

**The byte formats**: `Fernet.dfy` (token envelope over base64url), `Sse.dfy` (the chunk reader and the line reader of
server-sent events), `EventText.dfy` (the same against a writer of events), `Statuses.dfy` (status texts and their
classes), `Splits.dfy` (which streams read alike however they are cut), `Wire.dfy` (SOCKS5, CONNECT, two hops).

Times are integer nanoseconds; a Go string is a sequence of characters, one for each byte. A cache key is the pair of
account and trimmed model that `stateKey` encodes. Where the code treats a zero value as "missing" (a zero time, an
empty state), the model has a missing map entry; cached states are never empty and never dated before 2020, so the two
agree.

## Where the plain claim is too strong

* The carry of the chunk reader is rewritten on every call. Among the splits that leave the buffer room, a stream reads the
  same under all exactly if CR CR LF occurs nowhere but at its end and no prefix has a JSON text pending
  (`Splits.FitInvariantIffSafe`); under every split whatever, if it also fits into the buffer (`Splits.SplitInvariantIffSafe`).
* A failure is only seen in what the chunk reader hands on. A chunk for which the 64 KiB buffer has no room is dropped unread
  together with the buffer (refresh.go:170-174), and with it every failing frame it holds: `Streams.OverflowPromotes` is a
  run that promotes the state of a stream whose first frame is a failure. `Streams.PromotesIffNothingFound` says exactly when
  a success promotes, and `Streams.FailsIffFrameFails` under which conditions on the chunks every failing frame is seen.
* `nextRefreshLocked` reads the clock again, for every key, after `refreshDue` did. A pending key is collected only if its
  reading is the pass's own (`Scheduler.CollectedExactly`). With one reading the scheduler and the gate differ only for a
  state dated ahead (`Scheduler.SchedulerAgreesWithGate`).
* The comment at management.go:999-1000 says that the default clear only removes entries that can no longer be injected.
  Injection also accepts the requested model name (plugin.go:446) and, with `inject_expired`, expired states; the clear
  accepts neither. `Injection.InvalidClearRemoves` gives the exact condition, `Alias.AliasIsTakenAway` a run that ends with a
  state which is injected and cleared at the same moment.
* The generation fence guards the last section of a probe only. Not fenced are the cool-downs of accounts
  (`Probes.CoolDownIsUnfenced`) and proxies, the outcome `persist_failed`, and the persist: a probe that promoted before a
  reconfiguration still writes the state file after it if the path is the same (`Probes.OldProbePersists`), though only the
  cache of that moment (`Persistence.PersistEnds`). `Probes.GenerationFence` lists what is left alone.
* A CR at the very end of a body is no part of the last line for the line reader, but pending text for the chunk reader
  (`Sse.ReadersAgree`).

## Model

| member | source | states |
|---|---|---|
| Invariant.Reachable | plugin.go:91-119 | in every state of every run: the cache fits the policies in force, bindings and staged states belong together, probes carry consistent snapshots and counters, single flight with the cap of four, history at most 50 |
| Invariant.CacheInForce | plugin.go:332-405 | every cached state is a readable token, with the time and size of its own text, and its size satisfies the policy of the present configuration |
| Invariant.StepKeeps | probe.go:136-279 | each of the nineteen steps keeps the invariant |
| Invariant.ConfigureKeeps | plugin.go:332-405 | a reconfiguration keeps the invariant, with probes of older configurations still running |
| Invariant.OwnFinishKeeps | probe.go:237-269 | the last section keeps the invariant: what a probe promotes satisfies the policy in force although it was judged by its snapshot |
| Invariant.ProbeCandidateGenuine | probe.go:223-228 | what a probe keeps carries its token's own time and size and fits the snapshot's policy |
| Invariant.MergeAllowed | plugin.go:364-373 | a merge of genuine states lets only those in that the policy accepts |
| Probes.SingleFlight | probe.go:142-182 | at most four keys probed, one probe of the present generation for a key, each in its slot, and while probing is live no slot without a probe |
| Probes.SlotsNeverLeak | probe.go:232-237 | in every run, while probing is live every taken slot has a running probe |
| Probes.FinishFrees | probe.go:232-237 | the last section of a probe of the present generation frees its slot and leaves no probe of the key |
| Probes.ProbeIdentity | probe.go:178-181 | a probe keeps key, configuration, policy, generation and start time from start to end, and its number is never reused |
| Probes.GenerationFence | probe.go:232-271 | after a configure or shutdown nothing an older probe does changes cache, slots, pending refreshes, back-offs, flags, history, requests, configuration or acceptance |
| Probes.CoolDownIsUnfenced | probe.go:207-211 | a probe that began before a configure or shutdown and meets an account failure after it stops every start of its account for its own back-off |
| Probes.OldProbePersists | probe.go:270-273 | such a probe takes the persist lock exactly if it had promoted, with the path still in force, and the lock is free; its snapshot is the cache of that moment |
| Probes.SavingIsPromoted | probe.go:270-273 | a probe wants to write only after its own promotion, to the path configured then |
| Rates.StartsAreSpaced | probe.go:164-168 | two starts of one key lie at least retry_seconds apart, whatever happens between them except a configuration or a clear of the key |
| Rates.RateBound | probe.go:156-168 | a window of length W sees at most W / retry_seconds + 1 starts of a key |
| Rates.FetchesPerStart | probe.go:188-199 | one start leads to at most min(max_attempts, pool size) fetches at any later time |
| Rates.FetchBound | probe.go:188-204 | the starts of a window together lead to at most that many fetches each |
| Rates.WindowFetchBound | probe.go:156-204 | in a window of length W a key is fetched for at most (W / retry_seconds + 2) times min(max_attempts, pool size) times, by the probes the window starts and the one already running |
| Rates.FetchesThroughDifferent | probe.go:191-202 | in every run two fetches of one probe go through different pool entries |
| Rates.QuotaBackoffHolds | probe.go:239-248 | after a quota refusal the next start of the key waits out quota_backoff_seconds; nothing but a configuration or a clear shortens it |
| Attempts.RunLoop | probe.go:185-231 | the loop with its local variables ends in the probe that the machine's steps lead to |
| Attempts.TriedOnce | probe.go:191-205 | one probe goes through no pool entry twice and through at most max_attempts of them |
| Attempts.FirstAcceptableWins | probe.go:203-230 | the first acceptable answer is kept and ends the loop; without a candidate no answer was acceptable |
| Attempts.EndsOnlyFor | probe.go:191-231 | the loop ends at the first answer that is an account failure or an acceptable state, and without one only when the deadline has passed or attempts or pool are used up |
| Endings.LeavesIfDecided | probe.go:183-231 | in every run a probe in flight has left its loop exactly if its credential was missing, a fetch failed for its account, or a fetch delivered an acceptable state; it is in its loop exactly if its credential was found and none of that happened |
| Endings.DecisionEndsFetches | probe.go:207-230 | after such an event the probe makes no further fetch |
| Endings.LoopGoesOn | probe.go:191-218 | as long as nothing decided it, the next turn goes to the next pool entry: a cooling one is skipped, through any other one a fetch begins |
| Endings.LoopEndsFor | probe.go:191-237 | a probe ends only because the deadline passed, such an event happened, max_attempts fetches were made, or every pool entry had its turn |
| Endings.ProxyRests | probe.go:194-221 | through a proxy that failed no probe goes again within retry_seconds, unless another fetch through it returns or a configuration is taken |
| Endings.OutcomeIsReported | probe.go:205-266 | the reported outcome of a probe is what its last answer said (or whether it had a credential), and the history notes it and the promotion |
| Freshness.StepTakes | probe.go:243-248 | every step other than clear and configure changes the cache exactly by taking what it offers if that is strictly newer |
| Freshness.FreshnessMonotone | plugin.go:543-548 | in every run a cached issue time never decreases unless a clear removes the key or a configuration no longer covers it |
| Freshness.RunTakesOffers | plugin.go:543-549 | between clears and configurations the cache is the fold of all that was handed in |
| Freshness.OfferAllIsNewest | plugin.go:543-548 | the fold holds the newest of the old state and all offers of the key, and nothing else |
| Freshness.InterleavingIrrelevant | probe.go:243-248 | two runs that hand in the same states in any order, interleaved with anything, end equally fresh |
| Freshness.ConfiguredIsNewest | plugin.go:364-399 | configure keeps under a key the newest of seed, in-scope file entry and in-scope memory, the earlier source on a tie, and a key exactly if one of them exists |
| Freshness.PendingNeverLost | refresh.go:123-135 | a queued refresh stays queued until a strictly newer state comes in, or a clear or configuration removes it |
| Signals.PendingIffSignalled | refresh.go:123-135 | in every run a key becomes pending exactly by a failed completion with a telling code or message, a failing stream or a retry of a request bound to it, if refresh_on_errors is not off and the policy updates itself and covers the model, or by a manual refresh that picks it; with the reason of that event |
| Signals.FailureStaysPending | plugin.go:529-534 | the refresh that such a failure calls for is pending from then on until it is settled |
| Signals.RefreshIsExact | management.go:866-945 | a manual refresh makes exactly the named, known, self-updating, covered keys pending that are neither probed nor resting, marks them manual and notes it |
| Starts.StartsExactly | probe.go:136-182 | in every run a probe starts exactly if the account may be probed, a refresh is wanted, nothing stands against it and one of the four slots is free; it records slot, time, snapshot and reason |
| Starts.FailureStartsProbe | probe.go:136-182 | after a failure the next start of the key that nothing stands against takes place |
| Starts.StoppedIsInert | plugin.go:562-584 | from a quiesce or shutdown to the next configuration no probe starts, no state enters the cache, no refresh becomes pending, and every request is left untouched |
| Requests.RequestIsBound | plugin.go:449-454 | every live binding comes from a bind after which nothing renewed the attempt |
| Requests.CandidateIsStaged | plugin.go:490-521 | every staged state comes from a capture after which neither a renewal nor a failure was seen |
| Requests.AttemptIsolation | plugin.go:529-549 | what a completion promotes was captured after the last bind of the id, with no failure frame since, and goes under the account and model of that bind |
| Requests.CandidateBound | plugin.go:516-520 | a staged state has a live binding with the same account and key |
| Captures.BoundExactly | plugin.go:440-454 | a request attempt is bound, with an empty buffer and nothing staged, exactly if it is in scope and its account updates itself |
| Captures.StagedExactly | plugin.go:490-521 | a response header is staged exactly if it is a token of a normal size, dated at most five minutes ahead and less than an hour old, and newer than the cached one, for a live binding of a self-updating account |
| Captures.GoodResponseIsCached | plugin.go:490-549 | a token, written for any time and number of blocks with any padding, that comes with a bound request is cached by its success, unless the attempt was renewed, its stream failed, or it is too old or not the newest by then |
| Streams.BufferIsCarry | refresh.go:161-205 | in every run the buffer of a live binding is the carry of all chunks its attempt has heard |
| Streams.NotFailedIffNothingFound | refresh.go:161-205 | in every run an attempt sees no failure exactly if nothing that the reader hands on of all its chunks classifies as one, however the host cuts the stream and whatever the reader drops |
| Streams.StagedIffNotFailed | refresh.go:188-203 | what a capture staged is still staged exactly if no failure was seen since, as long as no renewal and no other capture comes in between |
| Streams.PromotesIffNothingFound | plugin.go:529-549 | a success promotes what its attempt captured exactly if nothing handed on since the capture classified as a failure, the runtime accepts, and the state is fresh and newer than the cached one |
| Streams.FailsIffFrameFails | refresh.go:161-205 | for a stream whose chunks fit the buffer, with no CR CR LF and no JSON text pending at a cut: a failure is seen exactly if a frame of the whole stream is one |
| Streams.FailedStreamNeverPromotes | refresh.go:177-194 | under these conditions, with the headers before the stream, a staged state has no failing frame in its whole stream |
| Streams.OverflowPromotes | refresh.go:170-174 | without room in the buffer this fails: a run whose stream begins with a failing frame, in a chunk of more than 64 KiB, and whose state is promoted |
| Injection.InjectedWasFetched | plugin.go:440-465 | under the defaults every injected value was delivered to and accepted by a probe that began after the last configuration while a refresh of exactly that key was pending, and no request on the key has succeeded since its promotion |
| Injection.VouchedIsPromoted | probe.go:243-259 | a flagged key's cached state was put there by a probe's promotion, never by a business response |
| Injection.CandidateIsDelivered | probe.go:203-228 | every candidate of a probe was delivered by one of its own fetches and judged acceptable then |
| Injection.FirstDeliveryWins | probe.go:223-230 | in every run the first acceptable delivery decides: the probe keeps that state as long as it lasts, makes no further fetch and gets no further delivery |
| Answers.AnswerIs | plugin.go:440-465 | out of scope or of a free plan: untouched; in scope: the cached value if it is dated at most five minutes ahead, fresh or injectable nevertheless, and promoted for the key unless inject_on_errors_only is off; otherwise cleared |
| Answers.KeptIsPromoted | probe.go:237-259 | what a probe of the present generation kept is promoted when it ends, if it is fresh and newer and requests are accepted; pending refresh, back-off and account block are over then |
| Answers.PromotedIsInjected | plugin.go:440-465 | the converse of InjectedWasFetched: from a promotion on every request in scope for the key is given a value at least as new, until the state's hour is over, a configuration, a stop, a clear of it, or a success on the key |
| Injection.InvalidClearRemoves | management.go:1035-1062 | of the injectable states a clear of the invalid ones removes exactly those whose own model the policy does not cover, and the expired ones |
| Injection.InvalidClearIsSafe | management.go:1035-1062 | in every reachable state, with inject_expired off, none that could be injected into a request for the key's own model |
| Clears.ExpiredLeavesAlive | management.go:1035-1062 | scope expired leaves of the chosen keys exactly the states less than an hour old, and every other entry as it is |
| Clears.InvalidLeavesUsable | management.go:1035-1062 | scope invalid leaves of the chosen keys exactly the states that the policy in force takes now |
| Clears.EverythingLeavesOthers | management.go:1035-1062 | scope all leaves exactly the entries of the keys that are not chosen |
| Clears.ExpiredClearIsSafe | management.go:1035-1062 | in every reachable state with inject_expired off, scope expired takes nothing that a request could be answered with |
| Clears.ClearForgetsIdle | management.go:1063-1079 | exactly the chosen keys without a state lose results, reasons, retry times and back-offs; a removed state loses its pending refresh |
| Alias.AliasIsTakenAway | management.go:999-1000 | the plain claim fails: a run whose last state injects a state for a request and loses it to a clear at the same moment |
| Persistence.FileIsSnapshot | plugin.go:754-765 | the file holds exactly the cache of the moment its snapshot was taken |
| Persistence.DiskNeverGoesBack | plugin.go:754-765 | with any number of writers, snapshots reach the file in the order they were taken |
| Persistence.FileCatchesUp | plugin.go:553-557 | once the last change of the cache is followed by a finished error-free persist, the file equals the cache |
| Persistence.PersistEnds | plugin.go:754-765 | a persist ends with the file holding the cache of its snapshot, or what it held before, whoever runs it and whatever is configured meanwhile |
| Persistence.LoadReturnsSaved | plugin.go:738-750 | loading a written file returns exactly the entries that fit the limit, unchanged |
| Persistence.RestartRestores | plugin.go:360-407 | a new runtime whose first event is a configuration with the file of an earlier run holds after it every saved entry that fits and is in scope, unless a seed is at least as new, and nothing else but seeds |
| Scheduler.SchedulerAgreesWithGate | refresh.go:103-121 | with one clock reading a key is due exactly if the gate's conditions on the key would let a probe start, but for states dated ahead |
| Scheduler.PendingNeedsOneReading | refresh.go:78-81 | a pending key counts as due exactly if the two readings of the clock agree and the gate is open |
| Scheduler.DueJobs | refresh.go:64-91 | whatever the iteration order, a pass collects exactly the keys that its readings of the clock make due, ordered by (due, key) |
| Scheduler.CollectedExactly | refresh.go:78-121 | a pending key is collected exactly if its reading is the pass's own and the gate is open; a held state whatever the readings, exactly if the gate is open and it is not dated ahead; in error-only mode nothing else |
| Scheduler.OrderIsUnique | refresh.go:86-91 | jobs in that order are determined by what they are |
| Scheduler.VisitsAreDetermined | refresh.go:64-101 | two passes over one state with their own iteration orders and readings make the same visits in the same order if they agree on which pending keys read the pass's own time |
| Frames.StepFootprint | plugin.go:91-119 | which of the sections can touch which field, for every field |
| Runtime.RuntimeState.Append | management.go:1104-1112 | the history gets the entry at its end and never exceeds 50 |
| Runtime.RuntimeState.QueueRefresh | refresh.go:123-135 | the pending refreshes become those of the machine: first reason kept, nothing for a key out of scope |
| Runtime.RuntimeState.Admits | probe.go:138-167 | the early returns let through exactly what `MayStart` allows |
| Runtime.RuntimeState.Begin | probe.go:138-182 | starts a probe exactly if `MayStart` allows it; the whole object takes the start step |
| Runtime.RuntimeState.Pick | probe.go:191-202 | refines the head of an attempt |
| Runtime.RuntimeState.Land | probe.go:205-229 | a refused or delivered fetch: the whole object takes the landing step |
| Runtime.RuntimeState.Finish | probe.go:232-271 | the last section with its fence: the whole object takes the finish step |
| Runtime.RuntimeState.Persist | plugin.go:754-765 | the persist of a promoting probe up to its snapshot, with its three outcomes: the whole object takes the persist step |
| Runtime.RuntimeState.Detach | plugin.go:416-422 | the first section of interceptAfter: the whole object takes the detach step |
| Runtime.RuntimeState.Attach | plugin.go:440-465 | the second section answers with the machine's injection, and the whole object takes the bind step |
| Runtime.RuntimeState.CaptureCandidate | plugin.go:490-521 | the early returns stage exactly what the machine captures, and nothing else changes |
| Runtime.RuntimeState.Complete | plugin.go:529-551 | failure report, release and promotion: the whole object takes the completion step |
| Runtime.RuntimeState.ReportFrames | refresh.go:177-194 | the frame loop reports exactly the frames of the buffer and leaves its unfinished tail |
| Runtime.RuntimeState.ObserveStreamFailure | refresh.go:161-205 | overflow, frame loop and raw JSON: the whole object takes the observation step |
| Runtime.RuntimeState.Eligible | management.go:904-935 | the switch queues exactly the refreshable entries |
| Runtime.RuntimeState.QueueAll | management.go:891-940 | the loop marks exactly the refreshable keys, in any order |
| Runtime.RuntimeState.Refresh | management.go:866-945 | the manual refresh queues exactly the refreshable keys, and the whole object takes the refresh step |
| Runtime.RuntimeState.Remove | management.go:1036-1061 | one turn of the clear loop removes an entry exactly if the scope covers it |
| Runtime.RuntimeState.RemoveEntries | management.go:1035-1062 | the loop removes exactly the covered entries and their pending refreshes |
| Runtime.RuntimeState.ForgetIdle | management.go:1063-1079 | the loop drops the bookkeeping of exactly the selected keys without a state |
| Runtime.RuntimeState.Clear | management.go:1032-1085 | both loops and the history entry: the whole object takes the clear step and the removed keys are those of the scope |
| Runtime.RuntimeState.Configure | plugin.go:287-407 | checks, merges and installation: the whole object takes the configure step, and nothing changes on an error |
| Runtime.RuntimeState.Run | plugin.go:91-119 | performs any sequence of sections and ends exactly in the state that the machine reaches by it |
| Runtime.Check | plugin.go:301-358 | the checks, with the loop over the credentials, accept exactly what `Prepare` accepts and build its configuration |
| Runtime.CheckCredentials | plugin.go:333-358 | one credential after the other: all pass, or the whole configuration is refused |
| Runtime.NormalizeOne | plugin.go:606-628 | the loop over accepted_blocks normalises a credential or refuses it |
| Runtime.NormalizeLimits | probe.go:31-81 | defaults, limits and the loop over the proxies yield the normalised probe configuration or refuse it |
| Runtime.MergeInto | plugin.go:364-373 | the merge loop yields the merge, in any iteration order |
| Runtime.MergeSources | plugin.go:332-399 | seeds, file and memory are merged in this order |
| Runtime.CollectSeeds | plugin.go:333-358 | the seed loop collects exactly the seeds |
| Policy.NormalizeProbe | probe.go:31-81 | an accepted probe configuration has its numbers in the ranges that the runtime relies on |
| Settings.ProbeIsTaken | probe.go:31-81 | a probe configuration is taken exactly if every number is left out or in its range and, with probing on, pool and entries are sound; what is left out gets its default |
| Settings.BaselineIs | plugin.go:606-655 | the block counts a credential takes: its list, else its number, else 10 for pro and plus and 12 for team |
| Settings.CoverageIs | plugin.go:657-697 | the models a credential covers: every one, or those equal to a pattern or beginning like one before its star, whatever case and space |
| Settings.ConfigurationIsTaken | plugin.go:301-363 | a configuration is taken exactly if limits, credentials, seeds, defaults and state file are sound |
| Settings.ConfigurationInForce | plugin.go:374-405 | what is in force afterwards: switches, limits, the account's own policy or the defaults, and empty bookkeeping |
| Settings.SeedIsCached | plugin.go:333-358 | every seed of a configuration that is taken is cached, unless a newer state is |
| Settings.CoveredIsKept | plugin.go:360-399 | a configuration keeps no state of memory or file that its policies do not cover, and loses none that they cover except to a newer one |
| Statuses.AccountIsBlamed | probe.go:351-359 | of the status texts that a fetch can end with, exactly those of answers 401, 403, 429 and of named limits, quotas and keys count as account failures |
| Statuses.ProxyIsBlamed | probe.go:370-372 | exactly the missing connection counts as a proxy failure |
| Statuses.QuotaWaitsLonger | probe.go:361-366 | exactly used up quotas and rate limits wait for quota_backoff_seconds, every other account failure for a minute |
| Fernet.RoundTrip | fernet.go:29-67 | any token written with a timestamp in [2020, 2100) and n blocks reads back as that timestamp and n, with any padding and white space |
| Fernet.DecodeInvertsEncode | fernet.go:69-72 | base64url decoding inverts the encoding of RFC 4648, section 5 |
| Fernet.BlocksAreLength | fernet.go:54-66 | for every accepted token number of letters and number of blocks determine each other |
| Fernet.PaddedLengthLaw | fernet.go:12-16 | the padded length grows strictly with the blocks and is the length of the written text |
| Fernet.DocumentedLengths | fernet.go:12-16 | the lengths 292, 312, 332 and 356 of the documentation |
| Fernet.ReadableIffFits | fernet.go:34-36 | a token read under one limit is read under another exactly if it fits, with the same result |
| Fernet.ReadsExactly | fernet.go:29-67 | accepted are exactly the texts of tokens of version 0x80 with a timestamp in [2020, 2100) and whole blocks, within the limit; they read as that timestamp and number of blocks |
| Fernet.RefusedUnread | fernet.go:29-43 | which texts are refused before decoding: empty, too long, or with a character outside 0x20 to 0x7e, in this order |
| Sse.SplitInvariance | refresh.go:161-205 | over any split into non-empty chunks that fit, with no CR CR LF before the last chunk and no JSON text pending after a chunk, the frames of the whole normalised stream are handed on in order and its unfinished tail is kept |
| Splits.SplitInvariantIffSafe | refresh.go:161-205 | every split reads as the whole exactly for the safe streams that fit into the buffer |
| Splits.FitInvariantIffSafe | refresh.go:161-205 | for streams of any length: every split that leaves the buffer room reads as the whole exactly for the safe streams, and a stream with a prefix that fills the buffer has no such split |
| Sse.CarryBounded | refresh.go:170-176 | whatever arrives, the carry stays within 64 KiB |
| Sse.FeedContinues | refresh.go:175-183 | one call goes on exactly where the whole-stream reading of the earlier bytes stopped |
| Sse.ProbeCompleted | probe.go:374-414 | the scanner loop decides as its recursive reading does |
| Sse.ReadersAgree | refresh.go:175-189 | on every stream the lines of the scanner and the frames of the rewritten stream carry the same data payloads in the same order; a final CR is no part of a line |
| Sse.CompletedByFrames | probe.go:374-414 | within the line limit the answer on every stream is that of the first terminal payload among the frames of the rewritten stream |
| EventText.WrittenIsRead | refresh.go:175-189 | a stream written field by field, with "data:" or "data: " before every text, other fields and comments, and LF or CR LF, is read as one frame for each event with exactly its texts as payload |
| EventText.WrittenFailureFails | refresh.go:175-194 | a written stream has a failing frame exactly if the texts of one of its events classify as a failure |
| EventText.WrittenDecides | probe.go:374-414 | a written body is decided by the first terminal event among those with data |
| EventText.FirstTerminalDecides | probe.go:374-414 | after events that are not terminal a completed event makes the body completed, a failed one does not |
| Wire.SocksConnect | transport.go:200-281 | on success exactly the protocol's words were sent and exactly the server's replies taken; it succeeds whenever the server accepts and the connection lasts |
| Wire.SocksAuth | transport.go:200-229 | the greeting and login part of it |
| Wire.SocksRequest | transport.go:238-280 | the request and reply part of it |
| Wire.RequestRoundTrip | transport.go:238-254 | a server reading RFC 1928, section 4, recovers command, address and port for every IPv4, IPv6 and named host |
| Wire.LoginRoundTrip | transport.go:213-220 | a server reading RFC 1929, section 2, recovers user and password |
| Wire.SocksReplyIsExact | transport.go:258-280 | for every form of bound address the client takes the replies and not one byte more |
| Wire.ReadHeader | transport.go:172-189 | the loop takes the shortest prefix that ends in CR LF CR LF, at most 64 KiB |
| Wire.RequestIsOneHeader | transport.go:157-171 | whatever target and host pass the check, the CONNECT request is one header |
| Wire.ConnectRoundTrip | transport.go:157-171 | a proxy reading RFC 9110, section 9.3.6, recovers target, host and credentials from the CONNECT request |
| Wire.Tunnel | transport.go:146-198 | one hop sends its request and takes exactly its answer; it succeeds whenever the answer is one to go on with and the connection lasts |
| Wire.Chain | transport.go:129-138 | two hops take exactly their two answers, and what is left is exactly the origin's bytes; it succeeds whenever both answers are ones to go on with and the connection lasts |
| Wire.ChainTakesAnswers | transport.go:129-138 | behind any two hops, in either order, a chain whose hops answer r1 and r2 goes on and takes exactly r1 and r2 |
| Wire.SocksAnswers | transport.go:258-280 | an accepting SOCKS server's replies are an exact answer |
| Wire.HttpAnswers | transport.go:172-197 | a header of plain lines is an exact answer |

## Left out

- main.go, the C ABI, routing, envelopes, status payload, counters and the web panel: no algorithm of their own.
- JSON, YAML and HTTP: decoding yields arbitrary values; the classification of an event text and the judgement of a CONNECT response are uninterpreted functions.
- TLS to an https proxy, dialing, deadlines, proxy URL and secret resolution, `{session}`: a connection is a byte stream that may break at any operation.
- `fetchProbe` and `selectedProbeAuth`: a fetch returns any value and status, the host lookup succeeds or fails; of the fetch only its status texts are modelled (`Statuses.dfy`).
- The worker's goroutine, its ticker and wake channel, and the joins of `stopBackground`: the machine may start a probe for any key at any time, which covers every schedule. A cancelled context is the flag `live`; a probe may end early at any head of its loop.
- The account metadata cache and `authIsFree` (plugin.go:434-436): a request of a free account gets no section of the machine beyond the first.
- File system details of `persistStates`: one atomic replacement that may fail. Versions of the file format other than 2 count as a missing or corrupt file. Entries under keys that are not in canonical form are not modelled.
- Account digests and entry handles are taken to be injective, so selectors name keys and accounts.
- Duplicates and order of `accepted_blocks` and `models`: they are sets; the texts of error messages and history details are not modelled.
- White space beyond ASCII and case folding beyond ASCII in trimming and lowering; wrap-around of the 64-bit counters.
- The checks of management requests before their sections (malformed bodies, unknown scopes, `scope=all` without `all=true`).
- `configure` cancels the old context before its section: between the two fewer probes may start, so every such run is a run of the machine without that moment.
- Persisting after a completion or a clear is a snapshot and a write that may follow at any time; the machine does not force them.
- Wire.LoginRoundTrip: the RFC asks for user and password of at least one byte, the code also sends empty ones, and the reader here accepts them.
- Persistence.FileCatchesUp: a path is compared as written; two spellings of one file count as two files.
- Liveness: that upstream ever answers, or that a due key is ever visited.
