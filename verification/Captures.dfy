/** What a request attempt is bound to and what its response leaves in the cache. */
module Captures {
  import opened Text
  import opened Wrappers
  import opened Policy
  import opened Machine
  import opened Frames
  import opened Requests
  import Answers
  import Fernet
  import Signals
  import Sse
  import Streams

  /** A request in scope of an account that updates itself. */
  predicate Bindable(s: State, id: string, account: string, model: string, requested: string) {
    && id != "" && !Answers.Foreign(s, account, model, requested)
    && Signals.SelfUpdates(s.config, CredentialFor(s.config, account).value)
  }

  lemma ScopeIs(s: State, account: string, model: string, requested: string)
    ensures account != "" && Trim(model) != "" && InjectionScope(s, account, model, requested)
       <==> !Answers.Foreign(s, account, model, requested)
  {
    hide Matches, Trim, CredentialFor;
  }

  lemma ScopeHasPolicy(s: State, account: string, model: string, requested: string)
    requires InjectionScope(s, account, model, requested)
    ensures CredentialFor(s.config, account).Some?
  {
    hide Matches, CredentialFor;
  }

  lemma BindsAre(s: State, id: string, account: string, model: string, requested: string)
    ensures Binds(s, id, account, model, requested) <==> Bindable(s, id, account, model, requested)
  {
    ScopeIs(s, account, model, requested);
    if InjectionScope(s, account, model, requested) {
      ScopeHasPolicy(s, account, model, requested);
      Signals.UpdatesAre(s.config, CredentialFor(s.config, account).value);
    }
    hide Answers.Foreign, InjectionScope, Trim, CredentialFor, AutoUpdate, Signals.SelfUpdates;
  }

  /** In every run a request attempt is bound, to its account and key and with nothing heard yet, exactly if it is in
      scope and the account updates itself; whatever an earlier attempt had staged is gone then. */
  lemma BoundExactly(es: seq<Event>, n: nat, id: string, account: string, model: string, requested: string)
    requires n < |es| && es[n].act == Bind(id, account, model, requested)
    ensures var s, s' := At(es, n), At(es, n + 1);
            if Bindable(s, id, account, model, requested) then
              && s'.requests == s.requests[id := Binding(account, Key(account, Trim(model)), "")]
              && s'.candidates == s.candidates - {id}
            else s' == s
  {
    hide At, Step, Binds, Bindable, Trim;
    AtNext(es, n);
    StepIs(At(es, n), es[n]);
    BindsAre(At(es, n), id, account, model, requested);
  }

  /** The token has a normal size, is dated at most five minutes ahead and less than an hour old, and it is newer than
      what is cached under k. */
  predicate TokenTaken(s: State, now: Time, k: Key, policy: Credential, info: Fernet.Info) {
    && NormalBlocks(policy, info.blocks)
    && Seconds(info.issuedAt) - Seconds(300) <= now < Seconds(info.issuedAt) + Seconds(3600)
    && (k in s.current ==> s.current[k].issuedAt < Seconds(info.issuedAt))
  }

  /** The header is a token that the policy of the binding would take now, newer than what is cached. */
  predicate Stageable(s: State, now: Time, id: string, header: string) {
    && id != "" && s.accepting && id in s.requests
    && var binding, parsed := s.requests[id], Fernet.Parse(Trim(header), s.config.maxStateBytes);
       var policy := CredentialFor(s.config, binding.account);
       && policy.Some? && Signals.SelfUpdates(s.config, policy.value)
       && parsed.Ok? && TokenTaken(s, now, binding.key, policy.value, parsed.info)
  }

  lemma EmptyIsNoToken(limit: int)
    ensures Fernet.Parse("", limit).Bad?
  {
  }

  lemma TimesAre()
    ensures Seconds(300) == SKEW && Seconds(3600) == TTL
  {
  }

  lemma TokenIs(s: State, now: Time, k: Key, policy: Credential, info: Fernet.Info, st: Stored)
    requires st.issuedAt == Seconds(info.issuedAt) && st.blocks == info.blocks
    ensures TokenTaken(s, now, k, policy, info) <==>
              NormalBlocks(policy, st.blocks) && st.issuedAt <= now + SKEW && Fresh(st, now) && Newer(s.current, k, st)
  {
    TimesAre();
    hide Seconds, NormalBlocks;
  }

  /** The binding is live, and its account updates itself. */
  predicate Capturing(s: State, id: string) {
    && id != "" && s.accepting && id in s.requests
    && var policy := CredentialFor(s.config, s.requests[id].account);
       policy.Some? && Signals.SelfUpdates(s.config, policy.value)
  }

  lemma NotCapturing(s: State, now: Time, id: string, header: string)
    requires !Capturing(s, id)
    ensures Captured(s, now, id, header).None? && !Stageable(s, now, id, header)
  {
    if id in s.requests && CredentialFor(s.config, s.requests[id].account).Some? {
      Signals.UpdatesAre(s.config, CredentialFor(s.config, s.requests[id].account).value);
    }
    hide Fernet.Parse, Trim, AutoUpdate, Signals.SelfUpdates, CredentialFor, TokenTaken, NormalBlocks, Fresh, Newer,
      Seconds;
  }

  lemma CapturingIs(s: State, now: Time, id: string, header: string)
    requires Capturing(s, id)
    ensures var binding, parsed := s.requests[id], Fernet.Parse(Trim(header), s.config.maxStateBytes);
            var policy := CredentialFor(s.config, binding.account).value;
            && (parsed.Bad? ==> Captured(s, now, id, header).None?)
            && (parsed.Ok? ==>
                  var st := Stored(Trim(header), Seconds(parsed.info.issuedAt), parsed.info.blocks);
                  Captured(s, now, id, header)
                  == if NormalBlocks(policy, st.blocks) && st.issuedAt <= now + SKEW && Fresh(st, now)
                        && Newer(s.current, binding.key, st)
                     then Some(Candidate(binding.account, binding.key, st)) else None)
  {
    EmptyIsNoToken(s.config.maxStateBytes);
    Signals.UpdatesAre(s.config, CredentialFor(s.config, s.requests[id].account).value);
    hide Fernet.Parse, Trim, AutoUpdate, Signals.SelfUpdates, CredentialFor, NormalBlocks, Fresh, Newer, Seconds;
  }

  lemma CapturedIs(s: State, now: Time, id: string, header: string)
    ensures Captured(s, now, id, header).Some? <==> Stageable(s, now, id, header)
    ensures Stageable(s, now, id, header) ==>
              var info := Fernet.Parse(Trim(header), s.config.maxStateBytes).info;
              Captured(s, now, id, header).value
              == Candidate(s.requests[id].account, s.requests[id].key,
                           Stored(Trim(header), Seconds(info.issuedAt), info.blocks))
  {
    hide Captured, Fernet.Parse, Trim, Signals.SelfUpdates, CredentialFor, TokenTaken, NormalBlocks, Fresh, Newer,
      Seconds;
    if Capturing(s, id) {
      var binding, policy := s.requests[id], CredentialFor(s.config, s.requests[id].account).value;
      var parsed := Fernet.Parse(Trim(header), s.config.maxStateBytes);
      CapturingIs(s, now, id, header);
      if parsed.Ok? {
        TokenIs(s, now, binding.key, policy, parsed.info,
                Stored(Trim(header), Seconds(parsed.info.issuedAt), parsed.info.blocks));
      }
    } else {
      NotCapturing(s, now, id, header);
    }
  }

  /** In every run a response header is staged exactly if it is such a token. */
  lemma StagedExactly(es: seq<Event>, n: nat, id: string, header: string)
    requires n < |es| && es[n].act == Capture(id, header)
    ensures var s, s' := At(es, n), At(es, n + 1);
            if Stageable(s, es[n].at, id, header) then
              var info := Fernet.Parse(Trim(header), s.config.maxStateBytes).info;
              s'.candidates
              == s.candidates[id := Candidate(s.requests[id].account, s.requests[id].key,
                                              Stored(Trim(header), Seconds(info.issuedAt), info.blocks))]
            else s' == s
  {
    hide At, Step, Captured, Stageable, Trim, Fernet.Parse;
    AtNext(es, n);
    StepIs(At(es, n), es[n]);
    CapturedIs(At(es, n), es[n].at, id, header);
  }

  /** What the run does between the capture and the completion of an attempt: it is not renewed, nothing else is
      captured, and the reader finds no failure. */
  ghost predicate Uneventful(es: seq<Event>, b: nat, m: nat, n: nat, id: string, json: Sse.Json, classify: Classifier)
    requires b < m < n <= |es|
  {
    && NotRenewed(es, b + 1, n, id) && Streams.SameReader(es, b + 1, n, id, json, classify)
    && (forall j | m < j < n :: !StagesAt(At(es, j), es[j], id))
    && Streams.Failures(es, b, m + 1, id, json, classify) == Streams.Failures(es, b, n, id, json, classify)
  }

  /** A good response is cached: in every run, if the header of a bound request carries a token, however it is padded,
      that was written for issuedAt with a number of blocks which the policy takes, then the success of the request
      puts it into the cache under the account and model of the request, unless the attempt was renewed or its
      stream failed meanwhile, or the state is too old or no longer the newest by then. */
  lemma GoodResponseIsCached(es: seq<Event>, b: nat, m: nat, n: nat, id: string, json: Sse.Json, classify: Classifier,
                             issuedAt: nat, blocks: nat, body: seq<Fernet.Byte>, pad: nat)
    requires b < m < n < |es| && BindsAt(At(es, b), es[b], id) && Uneventful(es, b, m, n, id, json, classify)
    requires es[m].act.Capture? && es[m].act.id == id && es[n].act.Complete? && es[n].act.id == id
    requires es[n].act.outcome == Succeeded
    requires Fernet.MIN_TIME <= issuedAt < Fernet.MAX_TIME && blocks >= 1 && |body| == 48 + 16 * blocks
    requires Trim(es[m].act.header) == Fernet.EncodeRaw(Fernet.Envelope(issuedAt, body)) + Fernet.Padding(pad)
    requires var s := At(es, m);
             && id != "" && s.accepting && id in s.requests
             && (4 * (Fernet.FIXED_BYTES + 16 * blocks) + 2) / 3 + pad <= s.config.maxStateBytes
             && var policy := CredentialFor(s.config, s.requests[id].account);
                && policy.Some? && Signals.SelfUpdates(s.config, policy.value) && NormalBlocks(policy.value, blocks)
                && Seconds(issuedAt) - Seconds(300) <= es[m].at < Seconds(issuedAt) + Seconds(3600)
                && (s.requests[id].key in s.current ==> s.current[s.requests[id].key].issuedAt < Seconds(issuedAt))
    requires var s, k := At(es, n), At(es, m).requests[id].key;
             && s.accepting && es[n].at < Seconds(issuedAt) + Seconds(3600)
             && (k in s.current ==> s.current[k].issuedAt < Seconds(issuedAt))
    ensures var k, s' := At(es, m).requests[id].key, At(es, n + 1);
            && k in s'.current && s'.current[k] == Stored(Trim(es[m].act.header), Seconds(issuedAt), blocks)
            && k !in s'.refreshRequests && id !in s'.requests && id !in s'.candidates
  {
    hide At, Step, BindsAt, Captured, Fernet.Parse, Fernet.EncodeRaw, Fernet.Envelope, Fernet.Padding, NormalBlocks,
      Signals.SelfUpdates, CredentialFor, Streams.Failures, Streams.SameReader, NotRenewed, Trim;
    TokenReads(es[m].act.header, issuedAt, blocks, body, pad, At(es, m).config.maxStateBytes);
    CapturedIs(At(es, m), es[m].at, id, es[m].act.header);
    Streams.PromotesIffNothingFound(es, b, m, n, es[n].at, id, json, classify);
    PromotedState(es, b, m, n, id, json, classify);
    CompletedParts(At(es, n), es[n]);
    AtNext(es, n);
  }

  lemma TokenReads(header: string, issuedAt: nat, blocks: nat, body: seq<Fernet.Byte>, pad: nat, limit: int)
    requires Fernet.MIN_TIME <= issuedAt < Fernet.MAX_TIME && blocks >= 1 && |body| == 48 + 16 * blocks
    requires Trim(header) == Fernet.EncodeRaw(Fernet.Envelope(issuedAt, body)) + Fernet.Padding(pad)
    requires (4 * (Fernet.FIXED_BYTES + 16 * blocks) + 2) / 3 + pad <= limit
    ensures Fernet.Parse(Trim(header), limit) == Fernet.Ok(Fernet.Info(issuedAt, 16 * blocks, blocks))
  {
    hide Fernet.Parse, Fernet.EncodeRaw, Fernet.Envelope, Trim;
    TrimTwice(header);
    Fernet.RoundTrip(issuedAt, blocks, body, pad, Trim(header), limit);
  }

  lemma PromotedState(es: seq<Event>, b: nat, m: nat, n: nat, id: string, json: Sse.Json, classify: Classifier)
    requires b < m < n <= |es| && Uneventful(es, b, m, n, id, json, classify) && StagesAt(At(es, m), es[m], id)
    ensures id in At(es, n).candidates ==>
              At(es, n).candidates[id] == Captured(At(es, m), es[m].at, id, es[m].act.header).value
  {
    hide At, Captured, Streams.Failures, Streams.SameReader, Renews, StagesAt;
    Streams.LaterNotRenewed(es, b + 1, m + 1, n, id);
    Streams.StagedIffNotFailed(es, m, n, id);
  }

  lemma CompletedParts(s: State, e: Event)
    requires e.act.Complete? && CompletionPromotes(s, e.at, e.act.id, e.act.outcome)
    ensures var c, s' := s.candidates[e.act.id], Step(s, e);
            && s'.current == s.current[c.key := c.state] && c.key !in s'.refreshRequests
            && e.act.id !in s'.requests && e.act.id !in s'.candidates
  {
    hide Step, Fresh, Newer, CompletionQueue;
    StepIs(s, e);
  }
}
