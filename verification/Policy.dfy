/** Configuration and the policy predicates that read it. */
module Policy {
  import opened Text
  import opened Wrappers

  /** Integer nanoseconds, as `time.Time` and `time.Duration` count them. */
  type Time = int

  function Seconds(n: int): Time {
    n * 1_000_000_000
  }

  const TTL: Time := 3600_000_000_000
  const SKEW: Time := 300_000_000_000
  const MAX_STATE_BYTES := 16384

  // ----- what the YAML decoder delivers -----

  datatype RawCredential = RawCredential(plan: string, normalBlocks: int, acceptedBlocks: seq<int>,
                                         state: string, stateModel: string, models: seq<string>,
                                         autoUpdate: Option<bool>)

  /** `resolves` is the outcome of reading the secret and parsing the URL. */
  datatype Endpoint = Endpoint(url: string, urlFile: string, urlEnv: string, connectHost: string, resolves: bool)

  datatype Probe = Probe(enabled: bool, first: Option<Endpoint>, pool: seq<Endpoint>,
                         timeoutSeconds: int, retrySeconds: int, refreshBeforeSeconds: int, maxAttempts: int,
                         backgroundRefresh: Option<bool>, refreshOnErrors: Option<bool>,
                         probeOnErrorsOnly: Option<bool>, quotaBackoffSeconds: int)

  datatype RawConfig = RawConfig(enabled: bool, autoUpdate: Option<bool>, injectExpired: bool,
                                 injectOnErrorsOnly: Option<bool>, stateFile: string, maxStateBytes: int,
                                 defaults: Option<RawCredential>, credentials: map<string, RawCredential>,
                                 probe: Probe)

  // ----- the normalised configuration -----

  datatype Plan = Free | Pro | Plus | Team | OtherPlan

  function PlanOf(raw: string): Plan {
    var plan := Lower(Trim(raw));
    if plan == "free" then Free
    else if plan == "pro" then Pro
    else if plan == "plus" then Plus
    else if plan == "team" then Team
    else OtherPlan
  }

  /** Normalisation removes duplicates and sorts, so the two lists become sets. */
  datatype Credential = Credential(plan: Plan, normalBlocks: int, acceptedBlocks: set<int>,
                                   state: string, stateModel: string, models: set<string>,
                                   autoUpdate: Option<bool>)

  datatype Config = Config(enabled: bool, autoUpdate: Option<bool>, injectExpired: bool,
                           injectOnErrorsOnly: Option<bool>, stateFile: string, maxStateBytes: int,
                           defaults: Option<Credential>, credentials: map<string, Credential>,
                           probe: Probe)

  predicate EnabledByDefault(flag: Option<bool>) {
    flag.None? || flag.value
  }

  function CanonicalModels(models: seq<string>): set<string> {
    set model | model in models && Trim(model) != "" :: Lower(Trim(model))
  }

  function NormalizeCredential(raw: RawCredential): Option<Credential> {
    if raw.normalBlocks < 0 then None
    else if exists blocks | blocks in raw.acceptedBlocks :: blocks <= 0 || blocks > 1024 then None
    else Some(Credential(PlanOf(raw.plan), raw.normalBlocks, (set blocks | blocks in raw.acceptedBlocks),
                         raw.state, Trim(raw.stateModel), CanonicalModels(raw.models), raw.autoUpdate))
  }

  function OrDefault(value: int, default: int): int {
    if value == 0 then default else value
  }

  predicate EndpointOk(entry: Endpoint) {
    && (if entry.url != "" then 1 else 0) + (if entry.urlFile != "" then 1 else 0)
       + (if entry.urlEnv != "" then 1 else 0) == 1
    && '\r' !in entry.connectHost && '\n' !in entry.connectHost
    && entry.resolves
  }

  /** The limits the runtime relies on. */
  predicate ProbeOk(p: Probe) {
    && 60 <= p.quotaBackoffSeconds <= 86400
    && 1 <= p.timeoutSeconds <= 180 && 1 <= p.retrySeconds
    && 0 <= p.refreshBeforeSeconds < 3600 && 1 <= p.maxAttempts <= 20
    && (p.enabled ==> 1 <= |p.pool| <= 100)
  }

  function WithDefaults(raw: Probe): Probe {
    raw.(timeoutSeconds := OrDefault(raw.timeoutSeconds, 15), retrySeconds := OrDefault(raw.retrySeconds, 60),
         refreshBeforeSeconds := OrDefault(raw.refreshBeforeSeconds, 300),
         maxAttempts := OrDefault(raw.maxAttempts, 1),
         quotaBackoffSeconds := OrDefault(raw.quotaBackoffSeconds, 900))
  }

  function EntriesOf(p: Probe): seq<Endpoint> {
    p.pool + if p.first.Some? then [p.first.value] else []
  }

  function NormalizeProbe(raw: Probe): (r: Option<Probe>)
    ensures r.Some? ==> ProbeOk(r.value)
  {
    var p := WithDefaults(raw);
    if p.quotaBackoffSeconds < 60 || p.quotaBackoffSeconds > 86400 then None
    else if p.timeoutSeconds < 1 || p.timeoutSeconds > 180 || p.retrySeconds < 1 || p.refreshBeforeSeconds < 0
         || p.refreshBeforeSeconds >= 3600 || p.maxAttempts < 1 || p.maxAttempts > 20 then None
    else if !p.enabled then Some(p)
    else if |p.pool| == 0 || |p.pool| > 100 then None
    else if exists entry | entry in EntriesOf(p) :: !EndpointOk(entry) then None
    else Some(p)
  }

  // ----- policy -----

  function CredentialFor(cfg: Config, account: string): Option<Credential> {
    if account in cfg.credentials then Some(cfg.credentials[account]) else cfg.defaults
  }

  predicate AutoUpdate(cfg: Config, policy: Credential) {
    if policy.autoUpdate.Some? then policy.autoUpdate.value
    else if cfg.autoUpdate.Some? then cfg.autoUpdate.value
    else true
  }

  /** `normalBlockCount` */
  predicate NormalBlocks(policy: Credential, blocks: int) {
    if policy.acceptedBlocks != {} then blocks in policy.acceptedBlocks
    else if policy.normalBlocks != 0 then blocks == policy.normalBlocks
    else
      match policy.plan
      case Pro => blocks == 10
      case Plus => blocks == 10
      case Team => blocks == 12
      case _ => false
  }

  predicate MatchesPattern(pattern: string, model: string) {
    if pattern != "" && pattern[|pattern| - 1] == '*' then pattern[..|pattern| - 1] <= model
    else model == pattern
  }

  /** `matchesModels` for one model. */
  predicate Matches(patterns: set<string>, rawModel: string) {
    patterns == {} ||
    var model := Lower(Trim(rawModel));
    model != "" && exists pattern | pattern in patterns :: MatchesPattern(pattern, model)
  }

  // ----- failure classes -----

  predicate QuotaStatus(status: string) {
    Contains(status, "usage_limit_reached") || Contains(status, "insufficient_quota")
  }

  /** `accountLevelProbeFailure` */
  predicate AccountFailure(status: string) {
    || Contains(status, "upstream_http_401") || Contains(status, "upstream_http_403")
    || Contains(status, "upstream_http_429") || Contains(status, "usage_limit_reached")
    || Contains(status, "rate_limit_exceeded") || Contains(status, "insufficient_quota")
    || Contains(status, "invalid_api_key")
  }

  /** `probeAccountBackoff` */
  function AccountBackoff(status: string, quotaSeconds: int): Time {
    if QuotaStatus(status) || Contains(status, "rate_limit_exceeded") then Seconds(quotaSeconds) else Seconds(60)
  }

  /** `proxyLevelProbeFailure` */
  predicate ProxyFailure(status: string) {
    status == "network_error" || Contains(status, "proxy") || Contains(status, "connect") || Contains(status, "tls")
  }

  /** Why a probe is wanted. */
  datatype Reason =
    | RateLimit | UpstreamUnavailable | Overload   // a failed request
    | CredentialRetry | Manual
    | BeforeExpiry | MissingState                  // no refresh was pending

  /** `failureRefreshReason` */
  function FailureReason(code: int, message: string): Option<Reason> {
    var lower := Lower(message);
    if code == 429 then Some(RateLimit)
    else if code == 502 || code == 503 || code == 504 then Some(UpstreamUnavailable)
    else if Contains(lower, "overload") then Some(Overload)
    else if Contains(lower, "rate_limit") || Contains(lower, "usage_limit_reached")
         || Contains(lower, "insufficient_quota") || Contains(lower, "too many requests") then Some(RateLimit)
    else None
  }
}
