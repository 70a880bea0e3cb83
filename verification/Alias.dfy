/** A run that refutes the plain claim about clears: it ends with a state that is injected for a request and
    taken away by a clear of the invalid states at the same moment. */
module Alias {
  import opened Text
  import opened Wrappers
  import opened Policy
  import opened Machine
  import opened Frames
  import opened Invariant
  import opened Injection
  import Fernet

  const ISSUED := 1600000000

  /** IV, ciphertext and MAC: 208 zero bytes. */
  function Body(): seq<Fernet.Byte> {
    Fernet.ToBigEndian(0, 208)
  }

  /** A token of ten blocks, issued in September 2020. */
  function AliasToken(): string {
    Fernet.EncodeRaw(Fernet.Envelope(ISSUED, Body()))
  }

  lemma AliasTokenReads(limit: int)
    requires limit >= 4096
    ensures Trim(AliasToken()) == AliasToken() != ""
    ensures Fernet.Parse(AliasToken(), limit) == Fernet.Ok(Fernet.Info(ISSUED, 160, 10))
  {
    hide Trim, Fernet.EncodeRaw, Fernet.Parse, Fernet.Envelope, Fernet.Padding;
    EnvelopeNotEmpty();
    TokenIsTrim(Fernet.Envelope(ISSUED, Body()));
    Unpadded(AliasToken());
    Fernet.RoundTrip(ISSUED, 10, Body(), 0, AliasToken(), limit);
  }

  lemma EnvelopeNotEmpty()
    ensures Fernet.Envelope(ISSUED, Body()) != []
  {
  }

  lemma Unpadded(text: string)
    ensures text + Fernet.Padding(0) == text
  {
  }

  /** The text of a token has no white space at its ends. */
  lemma TokenIsTrim(raw: seq<Fernet.Byte>)
    requires raw != []
    ensures Trim(Fernet.EncodeRaw(raw)) == Fernet.EncodeRaw(raw) != ""
  {
    Fernet.TextIsClean(Fernet.EncodeRaw(raw), 0);
    Unpadded(Fernet.EncodeRaw(raw));
    hide Trim, Fernet.EncodeRaw;
  }

  lemma LettersMatch(pattern: char, model: char)
    requires 'a' <= pattern <= 'z' && 'a' <= model <= 'z'
    ensures Matches({[pattern]}, [model]) == (pattern == model)
  {
    hide Trim, Lower;
    LetterKept(model);
    assert MatchesPattern([pattern], [model]) == (pattern == model);
  }

  /** Ten blocks for every account, and the model name "x" alone. */
  const ALIAS_RAW := RawConfig(true, None, false, Some(false), "", 4096,
                               Some(RawCredential("", 10, [], "", "", ["x"], None)), map[], NO_PROBE)
  const ALIAS := Credential(OtherPlan, 10, {}, "", "", {"x"}, None)
  const ALIAS_KEY := Key("a", "y")
  const ALIAS_TIME := Seconds(ISSUED)

  function AliasState(): Stored {
    Stored(AliasToken(), ALIAS_TIME, 10)
  }

  /** A request that asks for "x" is sent as "y"; its response carries the token, and it succeeds. */
  function AliasRun(): seq<Event> {
    [Event(ALIAS_TIME, Configure(ALIAS_RAW, Missing)), Event(ALIAS_TIME, Bind("r", "a", "y", "x")),
     Event(ALIAS_TIME, Capture("r", AliasToken())), Event(ALIAS_TIME, Complete("r", Succeeded, 0, ""))]
  }

  lemma NothingTrims()
    ensures Trim("") == "" && Lower("") == ""
  {
  }

  lemma NoPlan()
    ensures PlanOf("") == OtherPlan
  {
    hide Trim, Lower;
    NothingTrims();
  }

  lemma OneModel()
    ensures CanonicalModels(["x"]) == {"x"}
  {
    hide Trim, Lower;
    LetterKept('x');
    assert "x" == ['x'] && "x" in ["x"];
  }

  lemma AliasCredential()
    ensures NormalizeCredential(ALIAS_RAW.defaults.value) == Some(ALIAS)
  {
    hide Trim, Lower, PlanOf, CanonicalModels;
    NothingTrims();
    NoPlan();
    OneModel();
    var raw := ALIAS_RAW.defaults.value;
    assert (set blocks | blocks in raw.acceptedBlocks) == {};
  }

  lemma AliasConfig()
    ensures Prepare(ALIAS_RAW).Some?
    ensures var cfg := Prepare(ALIAS_RAW).value;
            && cfg.enabled && !cfg.injectExpired && cfg.injectOnErrorsOnly == Some(false) && cfg.maxStateBytes == 4096
            && cfg.credentials == map[] && cfg.defaults == Some(ALIAS) && cfg.autoUpdate == None
  {
    hide NormalizeCredential, NormalizeProbe, Fernet.Parse, NormalBlocks, Trim;
    AliasCredential();
    NothingTrims();
    NoProbeNormalizes();
  }

  lemma NoProbeNormalizes()
    ensures NormalizeProbe(NO_PROBE).Some?
  {
  }

  /** What matters of a state on the way. */
  predicate AliasAt(s: State, current: map<Key, Stored>) {
    s.accepting && Prepare(ALIAS_RAW) == Some(s.config) && s.current == current
  }

  lemma AliasConfigured(s: State)
    requires s.current == map[]
    ensures var s' := ConfigureStep(s, ALIAS_RAW, Missing); AliasAt(s', map[])
  {
    hide Prepare, ConfigureStep, Trim, Configured;
    AliasConfig();
    NothingTrims();
    assert Accepts(ALIAS_RAW, Missing);
    ConfiguredParts(s, ALIAS_RAW, Missing);
    NothingConfigured(Prepare(ALIAS_RAW).value);
  }

  lemma NothingConfigured(cfg: Config)
    requires cfg.credentials == map[]
    ensures Configured(cfg, Missing, map[]) == map[]
  {
    hide HasSeed;
    assert Seeds(cfg) == map[];
  }

  lemma AliasScope(s: State)
    requires Prepare(ALIAS_RAW) == Some(s.config) && s.accepting
    ensures CredentialFor(s.config, "a") == Some(ALIAS) && AutoUpdate(s.config, ALIAS)
    ensures KeyOf("a", "y") == ALIAS_KEY && Trim("y") == "y"
    ensures InjectionScope(s, "a", "y", "x") && !Matches(ALIAS.models, "y")
  {
    hide Prepare, Matches, Trim, Lower;
    AliasConfig();
    LetterKept('y');
    assert "y" == ['y'] && "x" == ['x'];
    LettersMatch('x', 'x');
    LettersMatch('x', 'y');
  }

  lemma AliasBound(s: State)
    requires AliasAt(s, map[])
    ensures var s' := BindStep(s, "r", "a", "y", "x");
            AliasAt(s', map[]) && "r" in s'.requests && s'.requests["r"] == Binding("a", ALIAS_KEY, "")
  {
    hide Prepare, InjectionScope, Trim, CredentialFor, AutoUpdate, Matches, KeyOf;
    AliasScope(s);
    BindFrame(s, "r", "a", "y", "x");
  }

  lemma AliasStages(s: State)
    requires AliasAt(s, map[]) && "r" in s.requests && s.requests["r"] == Binding("a", ALIAS_KEY, "")
    ensures Captured(s, ALIAS_TIME, "r", AliasToken()) == Some(Candidate("a", ALIAS_KEY, AliasState()))
  {
    hide Prepare, Fernet.Parse, Trim, CredentialFor, AutoUpdate, Matches, AliasToken, InjectionScope, KeyOf, Seconds;
    AliasConfig();
    AliasScope(s);
    AliasTokenReads(4096);
  }

  lemma AliasCaptured(s: State)
    requires AliasAt(s, map[]) && "r" in s.requests && s.requests["r"] == Binding("a", ALIAS_KEY, "")
    ensures var s' := CaptureStep(s, ALIAS_TIME, "r", AliasToken());
            && AliasAt(s', map[]) && s'.requests == s.requests
            && "r" in s'.candidates && s'.candidates["r"] == Candidate("a", ALIAS_KEY, AliasState())
  {
    hide Prepare, AliasToken, AliasState, Captured;
    AliasStages(s);
    CaptureFrame(s, ALIAS_TIME, "r", AliasToken());
  }

  lemma AliasCompleted(s: State)
    requires AliasAt(s, map[]) && "r" in s.candidates && s.candidates["r"] == Candidate("a", ALIAS_KEY, AliasState())
    ensures AliasAt(CompleteStep(s, ALIAS_TIME, "r", Succeeded, 0, ""), map[ALIAS_KEY := AliasState()])
  {
    hide Prepare, AliasToken, CompletionQueue;
    CompleteFrame(s, ALIAS_TIME, "r", Succeeded, 0, "");
  }

  lemma AtStart(es: seq<Event>)
    ensures At(es, 0) == INIT && INIT.current == map[]
  {
  }

  lemma ConfiguredAlias(es: seq<Event>)
    requires |es| > 0 && es[0] == Event(ALIAS_TIME, Configure(ALIAS_RAW, Missing))
    ensures AliasAt(At(es, 1), map[])
  {
    hide *;
    AtStart(es);
    AtNext(es, 0);
    StepIs(INIT, es[0]);
    AliasConfigured(INIT);
  }

  lemma BoundAlias(es: seq<Event>)
    requires |es| > 1 && es[1] == Event(ALIAS_TIME, Bind("r", "a", "y", "x")) && AliasAt(At(es, 1), map[])
    ensures var s := At(es, 2);
            AliasAt(s, map[]) && "r" in s.requests && s.requests["r"] == Binding("a", ALIAS_KEY, "")
  {
    hide *;
    AtNext(es, 1);
    StepIs(At(es, 1), es[1]);
    AliasBound(At(es, 1));
  }

  lemma CaptureAlias(es: seq<Event>)
    requires |es| > 2 && es[2] == Event(ALIAS_TIME, Capture("r", AliasToken())) && AliasAt(At(es, 2), map[])
    requires "r" in At(es, 2).requests && At(es, 2).requests["r"] == Binding("a", ALIAS_KEY, "")
    ensures var s := At(es, 3);
            && AliasAt(s, map[]) && "r" in s.requests && s.requests["r"] == Binding("a", ALIAS_KEY, "")
            && "r" in s.candidates && s.candidates["r"] == Candidate("a", ALIAS_KEY, AliasState())
  {
    hide *;
    AtNext(es, 2);
    StepIs(At(es, 2), es[2]);
    AliasCaptured(At(es, 2));
  }

  /** Every run that begins like it. */
  lemma CapturedAlias(es: seq<Event>)
    requires |es| >= 3 && es[..3] == AliasRun()[..3]
    ensures var s := At(es, 3);
            && AliasAt(s, map[]) && "r" in s.requests && s.requests["r"] == Binding("a", ALIAS_KEY, "")
            && "r" in s.candidates && s.candidates["r"] == Candidate("a", ALIAS_KEY, AliasState())
  {
    hide At, Step, CaptureStep, AliasAt, AliasState, AliasToken;
    assert es[0] == es[..3][0] && es[1] == es[..3][1] && es[2] == es[..3][2];
    ConfiguredAlias(es);
    BoundAlias(es);
    CaptureAlias(es);
  }

  lemma AliasArrives()
    ensures AliasAt(At(AliasRun(), 4), map[ALIAS_KEY := AliasState()])
  {
    hide At, Step, CompleteStep, AliasAt, AliasState, AliasToken;
    var es := AliasRun();
    CapturedAlias(es);
    AtNext(es, 3);
    StepIs(At(es, 3), es[3]);
    AliasCompleted(At(es, 3));
  }

  /** With an injection through the requested name the plain claim fails: at the end of this run the state is
      injected for a request, and a clear of the invalid states removes it at the same moment. */
  lemma AliasIsTakenAway()
    ensures var s := At(AliasRun(), 4);
            && InjectionOf(s, ALIAS_TIME, "a", "y", "x") == Injected(AliasToken())
            && ALIAS_KEY in Removed(s, ALIAS_TIME, Invalid, Selector(true, {}, {}, {}))
  {
    hide At, Prepare, Inv, InjectionScope, Matches, Trim, Removed, AliasToken, CredentialFor;
    var s := At(AliasRun(), 4);
    AliasArrives();
    AliasConfig();
    AliasScope(s);
    Reachable(AliasRun(), 4);
    InvalidClearRemoves(s, ALIAS_TIME, Selector(true, {}, {}, {}), "a", "y", "x");
  }
}
