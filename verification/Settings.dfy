/** Which configurations are taken, and what they mean once they are in force. */
module Settings {
  import opened Text
  import opened Wrappers
  import opened Policy
  import opened Machine
  import opened Frames
  import Fernet
  import Freshness

  // ----- probe limits -----

  /** A number is left out, or in its range. */
  predicate Within(value: int, low: int, high: int) {
    value == 0 || low <= value <= high
  }

  /** Exactly one source, one that yields a URL, and a host that cannot break a header. */
  predicate EntryTaken(entry: Endpoint) {
    && ((entry.url != "" && entry.urlFile == "" && entry.urlEnv == "")
        || (entry.url == "" && entry.urlFile != "" && entry.urlEnv == "")
        || (entry.url == "" && entry.urlFile == "" && entry.urlEnv != ""))
    && entry.resolves && '\r' !in entry.connectHost && '\n' !in entry.connectHost
  }

  predicate ProbeTaken(raw: Probe) {
    && Within(raw.timeoutSeconds, 1, 180) && raw.retrySeconds >= 0 && Within(raw.refreshBeforeSeconds, 0, 3599)
    && Within(raw.maxAttempts, 1, 20) && Within(raw.quotaBackoffSeconds, 60, 86400)
    && (raw.enabled ==>
          && 1 <= |raw.pool| <= 100 && (forall i | 0 <= i < |raw.pool| :: EntryTaken(raw.pool[i]))
          && (raw.first.Some? ==> EntryTaken(raw.first.value)))
  }

  lemma EntryIs(entry: Endpoint)
    ensures EndpointOk(entry) <==> EntryTaken(entry)
  {
  }

  lemma EntriesAre(raw: Probe)
    ensures (forall entry | entry in EntriesOf(raw) :: EndpointOk(entry)) <==>
              && (forall i | 0 <= i < |raw.pool| :: EntryTaken(raw.pool[i]))
              && (raw.first.Some? ==> EntryTaken(raw.first.value))
  {
    hide EndpointOk, EntryTaken;
    forall entry ensures EndpointOk(entry) <==> EntryTaken(entry) { EntryIs(entry); }
    var entries := EntriesOf(raw);
    assert forall i :: 0 <= i < |raw.pool| ==> entries[i] == raw.pool[i] && entries[i] in entries;
    if raw.first.Some? { assert entries[|raw.pool|] == raw.first.value && entries[|raw.pool|] in entries; }
  }

  /** A probe configuration is taken exactly if every number is left out or in its range and, with probing on, the
      pool holds 1 to 100 proxies and every entry is sound; numbers that are left out get their defaults. */
  lemma ProbeIsTaken(raw: Probe)
    ensures NormalizeProbe(raw).Some? <==> ProbeTaken(raw)
    ensures ProbeTaken(raw) ==>
              NormalizeProbe(raw).value
              == raw.(timeoutSeconds := if raw.timeoutSeconds == 0 then 15 else raw.timeoutSeconds,
                      retrySeconds := if raw.retrySeconds == 0 then 60 else raw.retrySeconds,
                      refreshBeforeSeconds := if raw.refreshBeforeSeconds == 0 then 300 else raw.refreshBeforeSeconds,
                      maxAttempts := if raw.maxAttempts == 0 then 1 else raw.maxAttempts,
                      quotaBackoffSeconds := if raw.quotaBackoffSeconds == 0 then 900 else raw.quotaBackoffSeconds)
  {
    EntriesAre(raw);
    SameEntries(raw);
    hide EndpointOk, EntryTaken, EntriesOf;
  }

  lemma SameEntries(raw: Probe)
    ensures EntriesOf(WithDefaults(raw)) == EntriesOf(raw)
  {
  }

  // ----- credentials -----

  predicate CredentialTaken(raw: RawCredential) {
    raw.normalBlocks >= 0 && forall i | 0 <= i < |raw.acceptedBlocks| :: 1 <= raw.acceptedBlocks[i] <= 1024
  }

  lemma CredentialIsTaken(raw: RawCredential)
    ensures NormalizeCredential(raw).Some? <==> CredentialTaken(raw)
  {
    hide PlanOf, CanonicalModels, Trim;
    assert forall i :: 0 <= i < |raw.acceptedBlocks| ==> raw.acceptedBlocks[i] in raw.acceptedBlocks;
  }

  /** The block counts that a credential takes: those of its list, or else its own number, or else what its plan
      stands for: 10 for "pro" and "plus", 12 for "team", in any case and with any space around. */
  lemma BaselineIs(raw: RawCredential, blocks: int)
    requires CredentialTaken(raw)
    ensures NormalizeCredential(raw).Some?
    ensures NormalBlocks(NormalizeCredential(raw).value, blocks) <==>
              if raw.acceptedBlocks != [] then blocks in raw.acceptedBlocks
              else if raw.normalBlocks != 0 then blocks == raw.normalBlocks
              else (Lower(Trim(raw.plan)) in {"pro", "plus"} && blocks == 10)
                   || (Lower(Trim(raw.plan)) == "team" && blocks == 12)
  {
    CredentialIsTaken(raw);
    hide CanonicalModels, Trim, Lower, CredentialTaken;
    var credential := NormalizeCredential(raw).value;
    assert blocks in credential.acceptedBlocks <==> blocks in raw.acceptedBlocks;
    if raw.acceptedBlocks != [] { assert raw.acceptedBlocks[0] in credential.acceptedBlocks; }
    PlanTexts();
  }

  lemma PlanTexts()
    ensures "free" != "pro" && "free" != "plus" && "free" != "team"
    ensures "pro" != "plus" && "pro" != "team" && "plus" != "team"
  {
    assert "free"[0] == 'f' && "pro"[0] == 'p' && "plus"[0] == 'p' && "team"[0] == 't' && |"pro"| == 3 && |"plus"| == 4;
  }

  lemma FreeIs(raw: RawCredential)
    requires NormalizeCredential(raw).Some?
    ensures NormalizeCredential(raw).value.plan == Free <==> Lower(Trim(raw.plan)) == "free"
  {
    hide CanonicalModels, Trim, Lower;
  }

  /** A model pattern: the model itself, or the beginning of it before a star. */
  predicate Fits(pattern: string, model: string) {
    pattern == model || (pattern != "" && pattern[|pattern| - 1] == '*' && pattern[..|pattern| - 1] <= model)
  }

  lemma FitsAre(pattern: string, model: string)
    ensures MatchesPattern(pattern, model) <==> Fits(pattern, model)
  {
  }

  /** The model names that a credential covers: with no pattern every one, otherwise those that fit one of its
      patterns, whatever their case and the space around them. */
  lemma CoverageIs(raw: RawCredential, model: string)
    requires NormalizeCredential(raw).Some?
    ensures Matches(NormalizeCredential(raw).value.models, model) <==>
              || (forall i | 0 <= i < |raw.models| :: Trim(raw.models[i]) == "")
              || (Trim(model) != ""
                  && exists i | 0 <= i < |raw.models| ::
                       Trim(raw.models[i]) != "" && Fits(Lower(Trim(raw.models[i])), Lower(Trim(model))))
  {
    hide Trim, Lower, PlanOf, MatchesPattern, Fits;
    forall p, m ensures MatchesPattern(p, m) <==> Fits(p, m) { FitsAre(p, m); }
    var patterns := NormalizeCredential(raw).value.models;
    assert patterns == CanonicalModels(raw.models);
    forall i | 0 <= i < |raw.models| && Trim(raw.models[i]) != ""
      ensures Lower(Trim(raw.models[i])) in patterns
    {
      assert raw.models[i] in raw.models;
    }
    LowerIsEmpty(Trim(model));
  }

  lemma LowerIsEmpty(s: string)
    ensures Lower(s) == "" <==> s == ""
  {
  }

  // ----- configurations -----

  /** A seed: none, or one for an exact model, with a token that fits the limit and the policy. */
  predicate SeedTaken(raw: RawCredential, limit: int)
    requires NormalizeCredential(raw).Some?
  {
    Trim(raw.state) == "" ||
    var parsed := Fernet.Parse(raw.state, limit);
    && Trim(raw.stateModel) != "" && '*' !in Trim(raw.stateModel)
    && parsed.Ok? && NormalBlocks(NormalizeCredential(raw).value, parsed.info.blocks)
  }

  function Limit(raw: RawConfig): int {
    if raw.maxStateBytes == 0 then 4096 else raw.maxStateBytes
  }

  predicate OwnTaken(raw: RawConfig, id: string)
    requires id in raw.credentials
  {
    && id != "" && Trim(id) == id && CredentialTaken(raw.credentials[id])
    && NormalizeCredential(raw.credentials[id]).Some? && SeedTaken(raw.credentials[id], Limit(raw))
  }

  predicate Taken(raw: RawConfig, file: FileView) {
    && Within(raw.maxStateBytes, 256, 16384) && ProbeTaken(raw.probe)
    && (raw.defaults.Some? ==> CredentialTaken(raw.defaults.value) && Trim(raw.defaults.value.state) == "")
    && (forall id | id in raw.credentials :: OwnTaken(raw, id))
    && file != Corrupt && (Trim(raw.stateFile) == "" ==> file == Missing)
  }

  predicate OwnPasses(raw: RawConfig, id: string)
    requires id in raw.credentials
  {
    && Trim(id) != "" && Trim(id) == id && NormalizeCredential(raw.credentials[id]).Some?
    && RawSeedOk(NormalizeCredential(raw.credentials[id]).value, OrDefault(raw.maxStateBytes, 4096))
  }

  lemma OwnIs(raw: RawConfig, id: string)
    requires id in raw.credentials
    ensures OwnTaken(raw, id) <==> OwnPasses(raw, id)
  {
    CredentialIsTaken(raw.credentials[id]);
    NothingTrims();
    hide CredentialTaken, Fernet.Parse, NormalBlocks, Trim, PlanOf, CanonicalModels;
  }

  lemma NothingTrims()
    ensures Trim("") == ""
  {
  }

  lemma AllNormal(raw: RawConfig)
    requires forall id | id in raw.credentials :: NormalizeCredential(raw.credentials[id]).Some?
    ensures var credentials := map id | id in raw.credentials :: NormalizeCredential(raw.credentials[id]).value;
            && (forall id :: id in credentials <==> id in raw.credentials)
            && forall id | id in raw.credentials :: credentials[id] == NormalizeCredential(raw.credentials[id]).value
  {
    hide NormalizeCredential;
  }

  lemma PrepareIs(raw: RawConfig)
    ensures Prepare(raw).Some? <==>
              && Within(raw.maxStateBytes, 256, 16384) && NormalizeProbe(raw.probe).Some?
              && (raw.defaults.Some? ==>
                    NormalizeCredential(raw.defaults.value).Some? && Trim(raw.defaults.value.state) == "")
              && forall id | id in raw.credentials :: OwnPasses(raw, id)
  {
    hide NormalizeCredential, NormalizeProbe, RawSeedOk, Trim;
    if forall id | id in raw.credentials :: NormalizeCredential(raw.credentials[id]).Some? {
      AllNormal(raw);
    }
  }

  /** A configuration is taken exactly if its limits are in range, every credential is sound and named without space
      around, every seed is one for an exact model that fits limit and policy, the defaults hold no seed, and the
      state file, if one is named, can be read. */
  lemma ConfigurationIsTaken(raw: RawConfig, file: FileView)
    ensures Accepts(raw, file) <==> Taken(raw, file)
  {
    PrepareIs(raw);
    ProbeIsTaken(raw.probe);
    if raw.defaults.Some? { CredentialIsTaken(raw.defaults.value); }
    forall id | id in raw.credentials ensures OwnTaken(raw, id) <==> OwnPasses(raw, id) { OwnIs(raw, id); }
    hide OwnTaken, OwnPasses, NormalizeCredential, NormalizeProbe, ProbeTaken, CredentialTaken, Trim, Prepare;
  }

  /** What a configuration that is taken puts in force: its switches and limits; for every account its own policy, or
      else the defaults; every seed, or a newer state; and no bookkeeping of before. */
  lemma ConfigurationInForce(s: State, raw: RawConfig, file: FileView, account: string)
    requires Accepts(raw, file)
    ensures var s' := ConfigureStep(s, raw, file);
            && s'.accepting == raw.enabled && s'.live && s'.generation == s.generation + 1
            && s'.config.injectExpired == raw.injectExpired && s'.config.injectOnErrorsOnly == raw.injectOnErrorsOnly
            && s'.config.autoUpdate == raw.autoUpdate && s'.config.stateFile == raw.stateFile
            && s'.config.maxStateBytes == Limit(raw) && Some(s'.config.probe) == NormalizeProbe(raw.probe)
            && CredentialFor(s'.config, account)
               == (if account in raw.credentials then NormalizeCredential(raw.credentials[account])
                   else if raw.defaults.Some? then NormalizeCredential(raw.defaults.value) else None)
            && s'.requests == map[] && s'.candidates == map[] && s'.probing == {} && s'.forceInject == {}
            && s'.refreshRequests == map[] && s'.lastProbe == map[] && s'.blockedUntil == map[]
            && s'.accountBlockedUntil == map[] && s'.proxyBlockedUntil == map[]
            && s'.tasks == s.tasks && s'.history == s.history
  {
    ConfiguredParts(s, raw, file);
    PreparedIs(raw);
    hide Accepts, Prepare, ConfigureStep, Configured, NormalizeProbe, NormalizeCredential, Limit;
  }

  lemma PreparedIs(raw: RawConfig)
    ensures Prepare(raw).Some? ==>
              var cfg := Prepare(raw).value;
              && cfg.enabled == raw.enabled && cfg.injectExpired == raw.injectExpired
              && cfg.injectOnErrorsOnly == raw.injectOnErrorsOnly && cfg.autoUpdate == raw.autoUpdate
              && cfg.stateFile == raw.stateFile && cfg.maxStateBytes == Limit(raw)
              && Some(cfg.probe) == NormalizeProbe(raw.probe)
              && cfg.credentials.Keys == raw.credentials.Keys
              && (forall id | id in raw.credentials ::
                    Some(cfg.credentials[id]) == NormalizeCredential(raw.credentials[id]))
              && cfg.defaults == (if raw.defaults.Some? then NormalizeCredential(raw.defaults.value) else None)
  {
    hide NormalizeProbe, NormalizeCredential, RawSeedOk, Trim;
  }

  /** Every seed is cached when the configuration is in force, unless a newer state is. */
  lemma SeedIsCached(s: State, raw: RawConfig, file: FileView, id: string)
    requires Accepts(raw, file) && id in raw.credentials && Trim(raw.credentials[id].state) != ""
    ensures var k, current := Key(id, Trim(raw.credentials[id].stateModel)), ConfigureStep(s, raw, file).current;
            var parsed := Fernet.Parse(raw.credentials[id].state, Limit(raw));
            && parsed.Ok? && k in current && current[k].issuedAt >= Seconds(parsed.info.issuedAt)
  {
    ConfiguredParts(s, raw, file);
    ConfigurationIsTaken(raw, file);
    PreparedIs(raw);
    SeedIs(raw, id);
    var cfg, k := Prepare(raw).value, Key(id, Trim(raw.credentials[id].stateModel));
    Freshness.ConfiguredIsNewest(cfg, file, s.current, k);
    hide Prepare, ConfigureStep, Configured, Fernet.Parse, HasSeed, SeedOf, Trim, InScope;
  }

  lemma SeedIs(raw: RawConfig, id: string)
    requires Prepare(raw).Some? && id in raw.credentials && OwnTaken(raw, id) && Trim(raw.credentials[id].state) != ""
    ensures var cfg, k := Prepare(raw).value, Key(id, Trim(raw.credentials[id].stateModel));
            var parsed := Fernet.Parse(raw.credentials[id].state, Limit(raw));
            && parsed.Ok? && HasSeed(cfg, k) && SeedOf(cfg, k).issuedAt == Seconds(parsed.info.issuedAt)
  {
    PreparedIs(raw);
    var credential := NormalizeCredential(raw.credentials[id]).value;
    assert credential.state == raw.credentials[id].state;
    assert credential.stateModel == Trim(raw.credentials[id].stateModel);
    hide Prepare, NormalizeCredential, Fernet.Parse, Trim, CredentialTaken, NormalBlocks, Seconds, Limit;
  }

  /** The policy in force covers the model and takes the size. */
  predicate Covered(cfg: Config, k: Key, st: Stored) {
    var policy := CredentialFor(cfg, k.account);
    && policy.Some? && k.model != ""
    && Matches(policy.value.models, k.model) && NormalBlocks(policy.value, st.blocks)
  }

  lemma ScopeIs(cfg: Config, k: Key, st: Stored)
    ensures InScope(cfg, k, st) <==> Covered(cfg, k, st)
  {
    hide Matches, NormalBlocks, CredentialFor;
  }

  /** A configuration keeps no state of memory or file that its policies do not cover, and loses none that they do:
      what is cached afterwards is a seed or covered, and every covered state of before is still there, or a
      newer one is. */
  lemma CoveredIsKept(s: State, raw: RawConfig, file: FileView, k: Key)
    requires Accepts(raw, file)
    ensures var s' := ConfigureStep(s, raw, file);
            && (k in s'.current && !HasSeed(s'.config, k) ==> Covered(s'.config, k, s'.current[k]))
            && (k in s.current && Covered(s'.config, k, s.current[k]) ==>
                  k in s'.current && s.current[k].issuedAt <= s'.current[k].issuedAt)
            && (file.Entries? && k in file.values && Fernet.Parse(file.values[k], s'.config.maxStateBytes).Ok? ==>
                  var info := Fernet.Parse(file.values[k], s'.config.maxStateBytes).info;
                  var st := Stored(file.values[k], Seconds(info.issuedAt), info.blocks);
                  Covered(s'.config, k, st) ==>
                    k in s'.current && st.issuedAt <= s'.current[k].issuedAt)
  {
    ConfiguredParts(s, raw, file);
    var cfg := Prepare(raw).value;
    var loaded := Freshness.Loaded(cfg, file);
    Freshness.ConfiguredIsNewest(cfg, file, s.current, k);
    if k in s.current { ScopeIs(cfg, k, s.current[k]); }
    if k in loaded { ScopeIs(cfg, k, loaded[k]); }
    hide Prepare, ConfigureStep, Configured, Fernet.Parse, HasSeed, SeedOf, InScope, Covered, Accepts, Seconds;
  }
}
