/** The status texts that a fetch can end with, against the classes that the retry loop reads out of them. */
module Statuses {
  import opened Text
  import opened Policy

  /** The error codes of an upstream answer that are kept in the status. */
  datatype Code = NoCode | UsageLimit | RateLimited | InsufficientQuota | ModelNotFound | InvalidKey

  /** How a fetch without a value ends. */
  datatype Failure =
    | NoRequest
    | NoConnection
    | Http(hundreds: char, tens: char, ones: char, code: Code)
    | Incomplete
    | NoState

  predicate Digit(c: char) {
    '0' <= c <= '9'
  }

  predicate Valid(f: Failure) {
    f.Http? ==> Digit(f.hundreds) && Digit(f.tens) && Digit(f.ones)
  }

  function CodeText(code: Code): string {
    match code
    case NoCode => ""
    case UsageLimit => "_usage_limit_reached"
    case RateLimited => "_rate_limit_exceeded"
    case InsufficientQuota => "_insufficient_quota"
    case ModelNotFound => "_model_not_found"
    case InvalidKey => "_invalid_api_key"
  }

  /** The status of `fetchProbe`. */
  function StatusText(f: Failure): string {
    match f
    case NoRequest => "request_invalid"
    case NoConnection => "network_error"
    case Http(hundreds, tens, ones, code) => "upstream_http_" + [hundreds, tens, ones] + CodeText(code)
    case Incomplete => "upstream_incomplete"
    case NoState => "state_missing"
  }

  /** The three digits of the answer. */
  predicate Answers(f: Failure, digits: string)
    requires |digits| == 3
  {
    f.Http? && f.hundreds == digits[0] && f.tens == digits[1] && f.ones == digits[2]
  }

  // ----- searching for a text -----

  /** a is nowhere followed by b. */
  predicate Apart(s: string, a: char, b: char) {
    forall i | 0 <= i < |s| - 1 :: s[i] != a || s[i + 1] != b
  }

  lemma ApartAppend(s: string, t: string, a: char, b: char)
    requires Apart(s, a, b) && Apart(t, a, b) && (s != "" && t != "" ==> s[|s| - 1] != a || t[0] != b)
    ensures Apart(s + t, a, b)
  {
    forall i | 0 <= i < |s + t| - 1 ensures (s + t)[i] != a || (s + t)[i + 1] != b {
      if i < |s| - 1 {
        assert (s + t)[i] == s[i] && (s + t)[i + 1] == s[i + 1];
      } else if i >= |s| {
        assert (s + t)[i] == t[i - |s|] && (s + t)[i + 1] == t[i - |s| + 1];
      }
    }
  }

  /** Two neighbours of sub that are never neighbours in s. */
  lemma MissingPair(s: string, sub: string, j: nat)
    requires j + 1 < |sub| && Apart(s, sub[j], sub[j + 1])
    ensures !Contains(s, sub)
  {
    forall i | 0 <= i <= |s| - |sub| ensures !OccursAt(s, sub, i) {
      assert s[i..i + |sub|][j] == s[i + j] && s[i..i + |sub|][j + 1] == s[i + j + 1];
    }
  }

  /** The first two of sub are neighbours at most at the beginning of s. */
  lemma OnlyFirst(s: string, sub: string)
    requires s != "" && |sub| >= 2 && Apart(s[1..], sub[0], sub[1])
    ensures Contains(s, sub) <==> sub <= s
  {
    forall i | 0 < i <= |s| - |sub| ensures !OccursAt(s, sub, i) {
      assert s[i..i + |sub|][0] == s[1..][i - 1] && s[i..i + |sub|][1] == s[1..][i];
    }
    assert sub <= s ==> OccursAt(s, sub, 0);
  }

  lemma EndsWith(a: string, b: string)
    ensures Contains(a + b, b)
  {
    assert (a + b)[|a|..|a| + |b|] == b;
    assert OccursAt(a + b, b, |a|);
  }

  // ----- the texts -----

  const STEM := "upstream_http_"

  /** Neighbours that tell the searched texts: each pair stands in one of them only. */
  predicate Mark(a: char, b: char) {
    || (a == 'u' && b == 's') || (a == 'x' && b == 'c') || (a == 'f' && b == 'f') || (a == 'a' && b == 'p')
    || (a == 'x' && b == 'y') || (a == 'n' && b == 'n') || (a == 't' && b == 'l') || (a == 'u' && b == 'p')
  }

  lemma AfterU(t: string, a: char, b: char)
    requires Mark(a, b) && Apart(t, a, b) && t != "" && t[0] == 'p' && (a != 'u' || b != 'p')
    ensures Apart("u" + t, a, b)
  {
    NothingApart("u", a, b);
    hide Apart;
    ApartAppend("u", t, a, b);
  }

  lemma NothingApart(s: string, a: char, b: char)
    requires |s| <= 1
    ensures Apart(s, a, b)
  {
  }

  lemma StemTail(a: char, b: char)
    requires Mark(a, b)
    ensures Apart("pstream_http_", a, b)
  {
  }

  lemma StemApart(a: char, b: char)
    requires Mark(a, b)
    ensures Apart(STEM[1..], a, b) && (a != 'u' || b != 'p' ==> Apart(STEM, a, b))
  {
    hide Apart, Mark;
    StemTail(a, b);
    assert STEM == "u" + "pstream_http_" && STEM[1..] == "pstream_http_";
    if a != 'u' || b != 'p' { AfterU("pstream_http_", a, b); }
  }

  lemma UsageApart(a: char, b: char)
    requires Mark(a, b) && !(a == 'u' && b == 's')
    ensures Apart("_usage_limit_reached", a, b)
  {
  }

  lemma RateApart(a: char, b: char)
    requires Mark(a, b) && !(a == 'x' && b == 'c')
    ensures Apart("_rate_limit_exceeded", a, b)
  {
  }

  lemma QuotaApart(a: char, b: char)
    requires Mark(a, b) && !(a == 'f' && b == 'f')
    ensures Apart("_insufficient_quota", a, b)
  {
  }

  lemma ModelApart(a: char, b: char)
    requires Mark(a, b)
    ensures Apart("_model_not_found", a, b)
  {
  }

  lemma KeyApart(a: char, b: char)
    requires Mark(a, b) && !(a == 'a' && b == 'p')
    ensures Apart("_invalid_api_key", a, b)
  {
  }

  lemma CodeApart(code: Code, a: char, b: char)
    requires Mark(a, b)
    requires code == UsageLimit ==> !(a == 'u' && b == 's')
    requires code == RateLimited ==> !(a == 'x' && b == 'c')
    requires code == InsufficientQuota ==> !(a == 'f' && b == 'f')
    requires code == InvalidKey ==> !(a == 'a' && b == 'p')
    ensures Apart(CodeText(code), a, b)
    ensures CodeText(code) != "" ==> CodeText(code)[0] == '_'
  {
    hide Apart, Mark;
    match code
    case NoCode => NothingApart("", a, b);
    case UsageLimit => UsageApart(a, b);
    case RateLimited => RateApart(a, b);
    case InsufficientQuota => QuotaApart(a, b);
    case ModelNotFound => ModelApart(a, b);
    case InvalidKey => KeyApart(a, b);
  }

  lemma DigitsApart(f: Failure, a: char, b: char)
    requires f.Http? && Valid(f) && Mark(a, b)
    ensures Apart([f.hundreds, f.tens, f.ones], a, b)
  {
  }

  lemma HttpTextIs(f: Failure)
    requires f.Http?
    ensures var rest := [f.hundreds, f.tens, f.ones] + CodeText(f.code);
            StatusText(f) == STEM + rest && StatusText(f)[1..] == STEM[1..] + rest
  {
    hide CodeText;
    var rest := [f.hundreds, f.tens, f.ones] + CodeText(f.code);
    assert StatusText(f) == STEM + rest;
    assert (STEM + rest)[1..] == STEM[1..] + rest;
  }

  lemma RestApart(f: Failure, a: char, b: char)
    requires f.Http? && Valid(f) && Mark(a, b) && Apart(CodeText(f.code), a, b)
    requires CodeText(f.code) != "" ==> CodeText(f.code)[0] == '_'
    ensures Apart([f.hundreds, f.tens, f.ones] + CodeText(f.code), a, b)
  {
    DigitsApart(f, a, b);
    hide Apart, CodeText;
    ApartAppend([f.hundreds, f.tens, f.ones], CodeText(f.code), a, b);
  }

  lemma StemEnds(a: char, b: char)
    requires Mark(a, b)
    ensures STEM[|STEM| - 1] == STEM[1..][|STEM| - 2] == '_' && a != '_'
  {
  }

  /** In the text of an answer the neighbours that tell another code are apart. */
  lemma HttpApart(f: Failure, a: char, b: char)
    requires f.Http? && Valid(f) && Mark(a, b)
    requires f.code == UsageLimit ==> !(a == 'u' && b == 's')
    requires f.code == RateLimited ==> !(a == 'x' && b == 'c')
    requires f.code == InsufficientQuota ==> !(a == 'f' && b == 'f')
    requires f.code == InvalidKey ==> !(a == 'a' && b == 'p')
    ensures Apart(StatusText(f)[1..], a, b) && (a != 'u' || b != 'p' ==> Apart(StatusText(f), a, b))
  {
    StemApart(a, b);
    StemEnds(a, b);
    CodeApart(f.code, a, b);
    RestApart(f, a, b);
    HttpTextIs(f);
    hide *;
    var rest := [f.hundreds, f.tens, f.ones] + CodeText(f.code);
    ApartAppend(STEM[1..], rest, a, b);
    if a != 'u' || b != 'p' {
      ApartAppend(STEM, rest, a, b);
    }
  }

  lemma InvalidApart(a: char, b: char)
    requires Mark(a, b)
    ensures Apart("request_invalid", a, b)
  {
  }

  lemma NetworkApart(a: char, b: char)
    requires Mark(a, b)
    ensures Apart("network_error", a, b)
  {
  }

  lemma MissingApart(a: char, b: char)
    requires Mark(a, b)
    ensures Apart("state_missing", a, b)
  {
  }

  lemma IncompleteTail(a: char, b: char)
    requires Mark(a, b)
    ensures Apart("pstream_incomplete", a, b)
  {
  }

  lemma IncompleteApart(a: char, b: char)
    requires Mark(a, b)
    ensures Apart("upstream_incomplete"[1..], a, b) && (a != 'u' || b != 'p' ==> Apart("upstream_incomplete", a, b))
  {
    hide Apart, Mark;
    IncompleteTail(a, b);
    assert "upstream_incomplete" == "u" + "pstream_incomplete";
    assert "upstream_incomplete"[1..] == "pstream_incomplete";
    if a != 'u' || b != 'p' { AfterU("pstream_incomplete", a, b); }
  }

  lemma OtherApart(f: Failure, a: char, b: char)
    requires !f.Http? && Mark(a, b)
    ensures a != 'u' || b != 'p' || !f.Incomplete? ==> Apart(StatusText(f), a, b)
  {
    hide Apart, Mark;
    match f
    case NoRequest => InvalidApart(a, b);
    case NoConnection => NetworkApart(a, b);
    case Incomplete => IncompleteApart(a, b);
    case NoState => MissingApart(a, b);
  }

  lemma TextApart(f: Failure, a: char, b: char)
    requires Valid(f) && Mark(a, b) && (a != 'u' || b != 'p')
    requires f.Http? && f.code == UsageLimit ==> !(a == 'u' && b == 's')
    requires f.Http? && f.code == RateLimited ==> !(a == 'x' && b == 'c')
    requires f.Http? && f.code == InsufficientQuota ==> !(a == 'f' && b == 'f')
    requires f.Http? && f.code == InvalidKey ==> !(a == 'a' && b == 'p')
    ensures Apart(StatusText(f), a, b)
  {
    hide Apart, StatusText;
    if f.Http? { HttpApart(f, a, b); } else { OtherApart(f, a, b); }
  }

  // ----- what is found in them -----

  predicate HasCode(f: Failure, code: Code) {
    f.Http? && f.code == code
  }

  lemma CodeEnds(f: Failure, name: string)
    requires f.Http? && CodeText(f.code) == "_" + name
    ensures Contains(StatusText(f), name)
  {
    var rest := STEM + [f.hundreds, f.tens, f.ones] + "_";
    assert StatusText(f) == rest + name;
    EndsWith(rest, name);
  }

  lemma UsageIsFound(f: Failure)
    requires Valid(f)
    ensures Contains(StatusText(f), "usage_limit_reached") <==> HasCode(f, UsageLimit)
  {
    hide Apart, StatusText, Contains;
    if HasCode(f, UsageLimit) {
      assert "_" + "usage_limit_reached" == "_usage_limit_reached";
      CodeEnds(f, "usage_limit_reached");
    } else {
      TextApart(f, 'u', 's');
      MissingPair(StatusText(f), "usage_limit_reached", 0);
    }
  }

  lemma RateIsFound(f: Failure)
    requires Valid(f)
    ensures Contains(StatusText(f), "rate_limit_exceeded") <==> HasCode(f, RateLimited)
  {
    hide Apart, StatusText, Contains;
    if HasCode(f, RateLimited) {
      assert "_" + "rate_limit_exceeded" == "_rate_limit_exceeded";
      CodeEnds(f, "rate_limit_exceeded");
    } else {
      TextApart(f, 'x', 'c');
      MissingPair(StatusText(f), "rate_limit_exceeded", 12);
    }
  }

  lemma QuotaIsFound(f: Failure)
    requires Valid(f)
    ensures Contains(StatusText(f), "insufficient_quota") <==> HasCode(f, InsufficientQuota)
  {
    hide Apart, StatusText, Contains;
    if HasCode(f, InsufficientQuota) {
      assert "_" + "insufficient_quota" == "_insufficient_quota";
      CodeEnds(f, "insufficient_quota");
    } else {
      TextApart(f, 'f', 'f');
      MissingPair(StatusText(f), "insufficient_quota", 4);
    }
  }

  lemma KeyIsFound(f: Failure)
    requires Valid(f)
    ensures Contains(StatusText(f), "invalid_api_key") <==> HasCode(f, InvalidKey)
  {
    hide Apart, StatusText, Contains;
    if HasCode(f, InvalidKey) {
      assert "_" + "invalid_api_key" == "_invalid_api_key";
      CodeEnds(f, "invalid_api_key");
    } else {
      TextApart(f, 'a', 'p');
      MissingPair(StatusText(f), "invalid_api_key", 8);
    }
  }

  lemma AnswerBegins(f: Failure, digits: string)
    requires f.Http? && |digits| == 3
    ensures "upstream_http_" + digits <= StatusText(f) <==> Answers(f, digits)
  {
    hide CodeText;
    HttpTextIs(f);
    var s, sub, code := StatusText(f), STEM + digits, STEM + [f.hundreds, f.tens, f.ones];
    assert s == code + CodeText(f.code);
    assert sub <= s <==> sub == code by { assert s[..17] == code; }
    assert sub == code <==> sub[14..] == code[14..];
    assert sub[14..] == digits && code[14..] == [f.hundreds, f.tens, f.ones];
  }

  lemma AnswerIsFound(f: Failure, digits: string)
    requires Valid(f) && |digits| == 3
    ensures Contains(StatusText(f), "upstream_http_" + digits) <==> Answers(f, digits)
  {
    hide Apart, Contains;
    var s, sub := StatusText(f), "upstream_http_" + digits;
    assert sub[0] == 'u' && sub[1] == 'p';
    if f.Http? {
      HttpApart(f, 'u', 'p');
      AnswerBegins(f, digits);
      hide StatusText;
      HttpStarts(f);
      OnlyFirst(s, sub);
    } else if f.Incomplete? {
      IncompleteApart('u', 'p');
      OnlyFirst(s, sub);
      assert s[9] == 'i' && sub[9] == 'h';
    } else {
      OtherApart(f, 'u', 'p');
      MissingPair(s, sub, 0);
    }
  }

  lemma HttpStarts(f: Failure)
    requires f.Http?
    ensures StatusText(f) != ""
  {
    hide CodeText;
  }

  /** The account is to blame exactly for the answers 401, 403 and 429, and for the limits, quotas and keys that the
      answer names. */
  lemma AccountIsBlamed(f: Failure)
    requires Valid(f)
    ensures AccountFailure(StatusText(f)) <==>
              || Answers(f, "401") || Answers(f, "403") || Answers(f, "429")
              || (f.Http? && f.code in {UsageLimit, RateLimited, InsufficientQuota, InvalidKey})
  {
    hide StatusText, Contains, Answers;
    assert "upstream_http_" + "401" == "upstream_http_401" && "upstream_http_" + "403" == "upstream_http_403";
    assert "upstream_http_" + "429" == "upstream_http_429";
    AnswerIsFound(f, "401");
    AnswerIsFound(f, "403");
    AnswerIsFound(f, "429");
    UsageIsFound(f);
    RateIsFound(f);
    QuotaIsFound(f);
    KeyIsFound(f);
  }

  /** The proxy is to blame exactly when there was no connection. */
  lemma ProxyIsBlamed(f: Failure)
    requires Valid(f)
    ensures ProxyFailure(StatusText(f)) <==> f.NoConnection?
  {
    TextApart(f, 'x', 'y');
    TextApart(f, 'n', 'n');
    TextApart(f, 't', 'l');
    MissingPair(StatusText(f), "proxy", 3);
    MissingPair(StatusText(f), "connect", 2);
    MissingPair(StatusText(f), "tls", 0);
    hide Apart, Contains;
    if f.Http? {
      assert StatusText(f)[0] == 'u' && "network_error"[0] == 'n';
    } else {
      assert "request_invalid"[0] == 'r' && "upstream_incomplete"[0] == 'u' && "state_missing"[0] == 's';
      assert "network_error"[0] == 'n';
    }
  }

  /** A used up quota blocks for the configured time, as a rate limit does for the account; everything else that is
      the account's fault for a minute. */
  lemma QuotaWaitsLonger(f: Failure, quotaSeconds: int)
    requires Valid(f)
    ensures QuotaStatus(StatusText(f)) <==> f.Http? && f.code in {UsageLimit, InsufficientQuota}
    ensures AccountBackoff(StatusText(f), quotaSeconds)
         == if f.Http? && f.code in {UsageLimit, InsufficientQuota, RateLimited} then Seconds(quotaSeconds)
            else Seconds(60)
  {
    hide StatusText, Contains, Seconds;
    UsageIsFound(f);
    RateIsFound(f);
    QuotaIsFound(f);
  }
}
