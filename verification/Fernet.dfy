/** The Fernet envelope of a turn state: base64url text around
    version (1), timestamp (8), IV (16), ciphertext (16n), MAC (32) bytes. */
module Fernet {
  import opened Text
  import opened Wrappers

  type Byte = x: int | 0 <= x < 256

  const FIXED_BYTES := 57
  const VERSION: Byte := 0x80
  const MIN_TIME := 1577836800 // 2020-01-01 UTC, in Unix seconds
  const MAX_TIME := 4102444800 // 2100-01-01 UTC

  // ----- base64url, RFC 4648 section 5 -----

  function Sextet(c: char): (r: Option<int>)
    ensures r.Some? ==> 0 <= r.value < 64
  {
    if 'A' <= c <= 'Z' then Some(c as int - 65)
    else if 'a' <= c <= 'z' then Some(c as int - 71)
    else if '0' <= c <= '9' then Some(c as int + 4)
    else if c == '-' then Some(62)
    else if c == '_' then Some(63)
    else None
  }

  function Letter(v: int): (c: char)
    requires 0 <= v < 64
    ensures Sextet(c) == Some(v)
  {
    if v < 26 then (v + 65) as char
    else if v < 52 then (v + 71) as char
    else if v < 62 then (v - 4) as char
    else if v == 62 then '-' else '_'
  }

  function ThreeBytes(v: int): seq<Byte>
    requires 0 <= v < 0x1000000
  {
    [v / 65536, v / 256 % 256, v % 256]
  }

  function TwoBytes(v: int): seq<Byte>
    requires 0 <= v < 0x40000
  {
    [v / 1024, v / 4 % 256]
  }

  /** The bytes of a whole group of four sextets, of a last group of three, and of one of two. */
  function OfFour(a: int, b: int, c: int, d: int): (r: seq<Byte>)
    requires 0 <= a < 64 && 0 <= b < 64 && 0 <= c < 64 && 0 <= d < 64
    ensures |r| == 3
  {
    ThreeBytes(a * 262144 + b * 4096 + c * 64 + d)
  }

  function OfThree(a: int, b: int, c: int): (r: seq<Byte>)
    requires 0 <= a < 64 && 0 <= b < 64 && 0 <= c < 64
    ensures |r| == 2
  {
    TwoBytes(a * 4096 + b * 64 + c)
  }

  function OfTwo(a: int, b: int): (r: seq<Byte>)
    requires 0 <= a < 64 && 0 <= b < 64
    ensures |r| == 1
  {
    [(a * 64 + b) / 16]
  }

  /** Go's lenient `RawURLEncoding`: groups of four letters, a last group of two or three,
      and no check that the unused low bits of that last group are zero. */
  function DecodeRaw(s: string): (r: Option<seq<Byte>>)
    ensures r.Some? ==> 4 * |r.value| <= 3 * |s| < 4 * |r.value| + 4
  {
    hide Sextet, OfFour, OfThree, OfTwo;
    if s == "" then Some([])
    else if |s| == 1 then None
    else
      var a, b := Sextet(s[0]), Sextet(s[1]);
      if a.None? || b.None? then None
      else if |s| == 2 then Some(OfTwo(a.value, b.value))
      else
        var c := Sextet(s[2]);
        if c.None? then None
        else if |s| == 3 then Some(OfThree(a.value, b.value, c.value))
        else
          var d, rest := Sextet(s[3]), DecodeRaw(s[4..]);
          if d.None? || rest.None? then None
          else Some(OfFour(a.value, b.value, c.value, d.value) + rest.value)
  }

  lemma GroupDecodes(s: string)
    requires DecodeRaw(s).Some?
    ensures |s| != 1 && (|s| >= 4 ==> DecodeRaw(s[4..]).Some?)
  {
    hide Sextet, OfFour, OfThree, OfTwo;
  }

  lemma FourMore(n: int)
    ensures (n + 4) % 4 == n % 4
  {
  }

  /** No text that is one letter longer than whole groups decodes. */
  lemma {:induction false} NoSingleLetter(s: string)
    requires DecodeRaw(s).Some?
    ensures |s| % 4 != 1
  {
    hide DecodeRaw;
    GroupDecodes(s);
    if |s| >= 4 {
      NoSingleLetter(s[4..]);
      FourMore(|s| - 4);
    }
  }

  function Group(x: Byte, y: Byte, z: Byte): string {
    [Letter(x / 4), Letter(x % 4 * 16 + y / 16), Letter(y % 16 * 4 + z / 64), Letter(z % 64)]
  }

  /** The canonical encoding, without padding: the partner the decoder is checked against. */
  function EncodeRaw(raw: seq<Byte>): (s: string)
    ensures |s| == (4 * |raw| + 2) / 3
    ensures forall c :: c in s ==> Sextet(c).Some?
  {
    if raw == [] then ""
    else if |raw| == 1 then [Letter(raw[0] / 4), Letter(raw[0] % 4 * 16)]
    else if |raw| == 2 then
      [Letter(raw[0] / 4), Letter(raw[0] % 4 * 16 + raw[1] / 16), Letter(raw[1] % 16 * 4)]
    else
      Group(raw[0], raw[1], raw[2]) + EncodeRaw(raw[3..])
  }

  lemma SextetsOfTriple(x: int, y: int, z: int)
    requires 0 <= x < 256 && 0 <= y < 256 && 0 <= z < 256
    ensures var v := x / 4 * 262144 + (x % 4 * 16 + y / 16) * 4096 + (y % 16 * 4 + z / 64) * 64 + z % 64;
            v / 65536 == x && v / 256 % 256 == y && v % 256 == z
  {
    var v := x / 4 * 262144 + (x % 4 * 16 + y / 16) * 4096 + (y % 16 * 4 + z / 64) * 64 + z % 64;
    assert v == x * 65536 + y * 256 + z;
    assert v / 256 == x * 256 + y;
  }

  lemma SextetsOfPair(x: int, y: int)
    requires 0 <= x < 256 && 0 <= y < 256
    ensures var v := x / 4 * 4096 + (x % 4 * 16 + y / 16) * 64 + y % 16 * 4;
            v / 1024 == x && v / 4 % 256 == y
  {
    var v := x / 4 * 4096 + (x % 4 * 16 + y / 16) * 64 + y % 16 * 4;
    assert v == x * 1024 + y * 4;
    assert v / 4 == x * 256 + y;
  }

  lemma DecodeGroup(a: int, b: int, c: int, d: int, rest: string, tail: seq<Byte>)
    requires 0 <= a < 64 && 0 <= b < 64 && 0 <= c < 64 && 0 <= d < 64
    requires DecodeRaw(rest) == Some(tail)
    ensures DecodeRaw([Letter(a), Letter(b), Letter(c), Letter(d)] + rest)
         == Some(ThreeBytes(a * 262144 + b * 4096 + c * 64 + d) + tail)
  {
    var s := [Letter(a), Letter(b), Letter(c), Letter(d)] + rest;
    assert s[4..] == rest;
  }

  lemma GroupRoundTrip(x: Byte, y: Byte, z: Byte, rest: string, tail: seq<Byte>)
    requires DecodeRaw(rest) == Some(tail)
    ensures DecodeRaw(Group(x, y, z) + rest) == Some([x, y, z] + tail)
  {
    SextetsOfTriple(x, y, z);
    DecodeGroup(x / 4, x % 4 * 16 + y / 16, y % 16 * 4 + z / 64, z % 64, rest, tail);
  }

  lemma DecodePair(a: int, b: int)
    requires 0 <= a < 64 && 0 <= b < 64
    ensures DecodeRaw([Letter(a), Letter(b)]) == Some([(a * 64 + b) / 16])
  {
  }

  lemma DecodeTriple(a: int, b: int, c: int)
    requires 0 <= a < 64 && 0 <= b < 64 && 0 <= c < 64
    ensures DecodeRaw([Letter(a), Letter(b), Letter(c)]) == Some(TwoBytes(a * 4096 + b * 64 + c))
  {
  }

  lemma PairRoundTrip(x: Byte, y: Byte)
    ensures DecodeRaw(EncodeRaw([x, y])) == Some([x, y])
  {
    SextetsOfPair(x, y);
    DecodeTriple(x / 4, x % 4 * 16 + y / 16, y % 16 * 4);
  }

  lemma SingleRoundTrip(x: Byte)
    ensures DecodeRaw(EncodeRaw([x])) == Some([x])
  {
    var v := x / 4 * 64 + x % 4 * 16;
    assert v == x * 16;
    DecodePair(x / 4, x % 4 * 16);
  }

  lemma EncodeFirst(raw: seq<Byte>)
    requires |raw| > 2
    ensures EncodeRaw(raw) == Group(raw[0], raw[1], raw[2]) + EncodeRaw(raw[3..])
  {
    hide Group, Letter;
  }

  lemma {:induction false} DecodeInvertsEncode(raw: seq<Byte>)
    ensures DecodeRaw(EncodeRaw(raw)) == Some(raw)
  {
    hide DecodeRaw, EncodeRaw, Group;
    if raw == [] {
      NothingDecodes();
    } else if |raw| == 1 {
      SingleRoundTrip(raw[0]);
      assert raw == [raw[0]];
    } else if |raw| == 2 {
      PairRoundTrip(raw[0], raw[1]);
      assert raw == [raw[0], raw[1]];
    } else {
      DecodeInvertsEncode(raw[3..]);
      EncodeFirst(raw);
      GroupRoundTrip(raw[0], raw[1], raw[2], EncodeRaw(raw[3..]), raw[3..]);
      assert raw == [raw[0], raw[1], raw[2]] + raw[3..];
    }
  }

  lemma NothingDecodes()
    ensures DecodeRaw(EncodeRaw([])) == Some([])
  {
  }

  function StripPadding(s: string): (r: string)
    ensures r <= s
    ensures r != "" ==> r[|r| - 1] != '='
  {
    if s != "" && s[|s| - 1] == '=' then StripPadding(s[..|s| - 1]) else s
  }

  function Padding(n: nat): (r: string)
    ensures |r| == n && forall c :: c in r ==> c == '='
  {
    if n == 0 then "" else Padding(n - 1) + "="
  }

  lemma {:induction false} StripRemovesPadding(s: string, n: nat)
    requires forall c :: c in s ==> c != '='
    ensures StripPadding(s + Padding(n)) == s
  {
    if n == 0 {
      assert s + Padding(0) == s;
      assert s != "" ==> s[|s| - 1] in s;
    } else {
      assert (s + Padding(n))[..|s| + n - 1] == s + Padding(n - 1);
      StripRemovesPadding(s, n - 1);
    }
  }

  // ----- the envelope -----

  function Power256(n: nat): (p: int)
    ensures p > 0
  {
    if n == 0 then 1 else 256 * Power256(n - 1)
  }

  function FromBigEndian(bs: seq<Byte>): (n: nat) {
    if bs == [] then 0 else FromBigEndian(bs[..|bs| - 1]) * 256 + bs[|bs| - 1]
  }

  function ToBigEndian(n: nat, width: nat): (bs: seq<Byte>)
    ensures |bs| == width
  {
    if width == 0 then [] else ToBigEndian(n / 256, width - 1) + [n % 256]
  }

  lemma {:induction false} BigEndianRoundTrip(n: nat, width: nat)
    requires n < Power256(width)
    ensures FromBigEndian(ToBigEndian(n, width)) == n
  {
    if width > 0 {
      BigEndianRoundTrip(n / 256, width - 1);
      var bs := ToBigEndian(n, width);
      assert bs[..width - 1] == ToBigEndian(n / 256, width - 1);
    }
  }

  datatype Info = Info(issuedAt: int, cipherBytes: int, blocks: int)

  datatype Fault = Empty | TooLong | NotPrintable | BadBase64 | TooShort | BadVersion | NotAligned | BadTime

  datatype Parsed = Ok(info: Info) | Bad(fault: Fault)

  predicate Printable(s: string) {
    forall i | 0 <= i < |s| :: 0x20 <= s[i] as int <= 0x7e
  }

  /** The binary part of `parseTurnState`. */
  function ParseRaw(raw: seq<Byte>): (r: Parsed)
    ensures r.Ok? ==> MIN_TIME <= r.info.issuedAt < MAX_TIME && r.info.blocks >= 1
  {
    if |raw| < FIXED_BYTES + 16 then Bad(TooShort)
    else if raw[0] != VERSION then Bad(BadVersion)
    else
      var cipherBytes := |raw| - FIXED_BYTES;
      if cipherBytes < 16 || cipherBytes % 16 != 0 then Bad(NotAligned)
      else
        var seconds := FromBigEndian(raw[1..9]);
        if seconds > MAX_TIME || seconds < MIN_TIME || seconds >= MAX_TIME then Bad(BadTime)
        else Ok(Info(seconds, cipherBytes, cipherBytes / 16))
  }

  /** `parseTurnState` */
  function Parse(value: string, maxBytes: int): (r: Parsed)
    ensures r.Ok? ==> MIN_TIME <= r.info.issuedAt < MAX_TIME && r.info.blocks >= 1
    ensures r.Ok? ==> value != ""
  {
    var v := Trim(value);
    if v == "" then Bad(Empty)
    else if |v| > maxBytes then Bad(TooLong)
    else if !Printable(v) then Bad(NotPrintable)
    else
      var raw := DecodeRaw(StripPadding(v));
      if raw.None? then Bad(BadBase64) else ParseRaw(raw.value)
  }

  /** A limit only decides whether a token is read at all, never what it means. */
  lemma LargerLimitReadsTheSame(value: string, small: int, large: int)
    requires Parse(value, small).Ok? && small <= large
    ensures Parse(value, large) == Parse(value, small)
  {
    hide DecodeRaw, ParseRaw, Trim, StripPadding;
  }

  /** A token read under one limit is read under another exactly when it fits. */
  lemma ReadableIffFits(value: string, read: int, limit: int)
    requires Parse(value, read).Ok?
    ensures Parse(value, limit).Ok? <==> |Trim(value)| <= limit
    ensures Parse(value, limit).Ok? ==> Parse(value, limit) == Parse(value, read)
  {
    hide DecodeRaw, ParseRaw, Trim, StripPadding;
  }

  /** White space around a token means nothing. */
  lemma TrimmedReadsTheSame(value: string, limit: int)
    ensures Parse(Trim(value), limit) == Parse(value, limit)
  {
    hide DecodeRaw, ParseRaw, StripPadding, Trim;
    TrimTwice(value);
  }

  function Envelope(issuedAt: nat, body: seq<Byte>): seq<Byte> {
    [VERSION] + ToBigEndian(issuedAt, 8) + body
  }

  lemma EnvelopeReads(issuedAt: nat, n: nat, body: seq<Byte>)
    requires MIN_TIME <= issuedAt < MAX_TIME
    requires n >= 1 && |body| == 48 + 16 * n
    ensures ParseRaw(Envelope(issuedAt, body)) == Ok(Info(issuedAt, 16 * n, n))
  {
    assert Envelope(issuedAt, body)[1..9] == ToBigEndian(issuedAt, 8);
    assert Power256(8) > MAX_TIME by {
      assert Power256(4) == 4294967296;
      assert Power256(8) == 256 * (256 * (256 * (256 * Power256(4))));
    }
    BigEndianRoundTrip(issuedAt, 8);
  }

  lemma LetterIsClean(c: char)
    requires Sextet(c).Some? || c == '='
    ensures !Space(c) && 0x20 <= c as int <= 0x7e
    ensures Sextet(c).Some? ==> c != '='
  {
  }

  lemma TextIsPrintable(v: string)
    requires v != "" && forall i :: 0 <= i < |v| ==> Sextet(v[i]).Some? || v[i] == '='
    ensures Trim(v) == v && Printable(v)
  {
    forall i | 0 <= i < |v| ensures !Space(v[i]) && 0x20 <= v[i] as int <= 0x7e { LetterIsClean(v[i]); }
    TrimFixes(v);
  }

  lemma TextIsClean(text: string, pad: nat)
    requires text != "" && forall c :: c in text ==> Sextet(c).Some?
    ensures var v := text + Padding(pad);
            Trim(v) == v && Printable(v) && StripPadding(v) == text
  {
    var p := Padding(pad);
    forall i | 0 <= i < |text + p| ensures Sextet((text + p)[i]).Some? || (text + p)[i] == '=' {
      assert if i < |text| then (text + p)[i] in text else (text + p)[i] in p;
    }
    TextIsPrintable(text + p);
    forall c | c in text ensures c != '=' { LetterIsClean(c); }
    StripRemovesPadding(text, pad);
  }

  lemma CleanTextReads(text: string, raw: seq<Byte>, pad: nat, value: string, limit: int)
    requires text != "" && (forall c :: c in text ==> Sextet(c).Some?)
    requires DecodeRaw(text) == Some(raw)
    requires Trim(value) == text + Padding(pad) && |text| + pad <= limit
    ensures Parse(value, limit) == ParseRaw(raw)
  {
    hide DecodeRaw, ParseRaw, Trim, StripPadding, Padding, Sextet, Printable;
    TextIsClean(text, pad);
  }

  /** Any bytes written as base64url, padded or not, reach `ParseRaw` unchanged. */
  lemma TextReads(raw: seq<Byte>, pad: nat, value: string, limit: int)
    requires raw != [] && Trim(value) == EncodeRaw(raw) + Padding(pad)
    requires (4 * |raw| + 2) / 3 + pad <= limit
    ensures Parse(value, limit) == ParseRaw(raw)
  {
    DecodeInvertsEncode(raw);
    CleanTextReads(EncodeRaw(raw), raw, pad, value, limit);
  }

  /** Writing a token and reading it back: any IV, ciphertext and MAC bytes, any amount of
      padding, and any white space around the text. */
  lemma RoundTrip(issuedAt: nat, n: nat, body: seq<Byte>, pad: nat, value: string, limit: int)
    requires MIN_TIME <= issuedAt < MAX_TIME
    requires n >= 1 && |body| == 48 + 16 * n
    requires Trim(value) == EncodeRaw(Envelope(issuedAt, body)) + Padding(pad)
    requires (4 * (FIXED_BYTES + 16 * n) + 2) / 3 + pad <= limit
    ensures Parse(value, limit) == Ok(Info(issuedAt, 16 * n, n))
  {
    EnvelopeReads(issuedAt, n, body);
    TextReads(Envelope(issuedAt, body), pad, value, limit);
  }

  // ----- exactly the tokens -----

  lemma {:induction false} BigEndianInverse(bs: seq<Byte>)
    ensures ToBigEndian(FromBigEndian(bs), |bs|) == bs
  {
    if bs != [] {
      BigEndianInverse(bs[..|bs| - 1]);
      assert bs == bs[..|bs| - 1] + [bs[|bs| - 1]];
    }
  }

  lemma {:induction false} DecodedAreLetters(s: string)
    requires DecodeRaw(s).Some?
    ensures forall i :: 0 <= i < |s| ==> Sextet(s[i]).Some?
  {
    hide Sextet, OfFour, OfThree, OfTwo;
    if |s| >= 4 {
      DecodedAreLetters(s[4..]);
      assert forall i :: 4 <= i < |s| ==> s[i] == s[4..][i - 4];
    }
  }

  lemma {:induction false} PaddingIsPrintable(s: string)
    requires Printable(StripPadding(s))
    ensures Printable(s)
  {
    if s != "" && s[|s| - 1] == '=' {
      PaddingIsPrintable(s[..|s| - 1]);
      assert forall i :: 0 <= i < |s| - 1 ==> s[i] == s[..|s| - 1][i];
    }
  }

  lemma DecodedIsPrintable(s: string)
    requires DecodeRaw(StripPadding(s)).Some?
    ensures Printable(s)
  {
    DecodedAreLetters(StripPadding(s));
    hide DecodeRaw, StripPadding;
    PaddingIsPrintable(s);
  }

  /** The text is one of the token with this timestamp and these n blocks: its letters stand for an envelope. */
  predicate Writes(value: string, limit: int, issuedAt: int, n: int, body: seq<Byte>) {
    && MIN_TIME <= issuedAt < MAX_TIME && n >= 1 && |body| == 48 + 16 * n && |Trim(value)| <= limit
    && DecodeRaw(StripPadding(Trim(value))) == Some(Envelope(issuedAt, body))
  }

  lemma WrittenReads(value: string, limit: int, issuedAt: int, n: int, body: seq<Byte>)
    requires Writes(value, limit, issuedAt, n, body)
    ensures Parse(value, limit) == Ok(Info(issuedAt, 16 * n, n))
  {
    EnvelopeReads(issuedAt, n, body);
    DecodedIsPrintable(Trim(value));
    NothingIsNoEnvelope();
    hide DecodeRaw, ParseRaw, Trim, Printable, Envelope;
  }

  lemma NothingIsNoEnvelope()
    ensures DecodeRaw(StripPadding("")) == Some([])
    ensures forall issuedAt: nat, body :: Envelope(issuedAt, body) != []
  {
  }

  lemma RawIsEnvelope(raw: seq<Byte>)
    requires ParseRaw(raw).Ok?
    ensures var info := ParseRaw(raw).info;
            && MIN_TIME <= info.issuedAt < MAX_TIME && info.blocks >= 1 && info.cipherBytes == 16 * info.blocks
            && |raw[9..]| == 48 + 16 * info.blocks && raw == Envelope(info.issuedAt, raw[9..])
  {
    BigEndianInverse(raw[1..9]);
    assert raw == [raw[0]] + raw[1..9] + raw[9..];
    hide ToBigEndian, FromBigEndian;
  }

  /** Accepted are exactly the texts of tokens: base64url, with or without padding, of version 0x80, a timestamp in
      [2020, 2100) and whole blocks, within the limit; and they read as that timestamp and number of blocks. */
  lemma ReadsExactly(value: string, limit: int, issuedAt: int, n: int)
    ensures Parse(value, limit) == Ok(Info(issuedAt, 16 * n, n))
       <==> exists body :: Writes(value, limit, issuedAt, n, body)
    ensures Parse(value, limit).Ok? ==> Parse(value, limit).info.cipherBytes == 16 * Parse(value, limit).info.blocks
  {
    var raw := DecodeRaw(StripPadding(Trim(value)));
    if Parse(value, limit).Ok? {
      RawIsEnvelope(raw.value);
      if Parse(value, limit) == Ok(Info(issuedAt, 16 * n, n)) {
        assert Writes(value, limit, issuedAt, n, raw.value[9..]);
      }
    }
    if body :| Writes(value, limit, issuedAt, n, body) {
      WrittenReads(value, limit, issuedAt, n, body);
    }
    hide DecodeRaw, ParseRaw, Trim, Printable, Envelope, StripPadding;
  }

  /** Why a text is refused before it is decoded: the first of these that holds. */
  lemma RefusedUnread(value: string, limit: int)
    ensures var v, r := Trim(value), Parse(value, limit);
            && (r == Bad(Empty) <==> v == "")
            && (r == Bad(TooLong) <==> v != "" && |v| > limit)
            && (r == Bad(NotPrintable) <==>
                  v != "" && |v| <= limit && exists i | 0 <= i < |v| :: v[i] < ' ' || v[i] > '~')
  {
    hide DecodeRaw, StripPadding, Trim, FromBigEndian;
  }

  /** Length of the text of a token with n ciphertext blocks, without and with its padding. */
  function Letters(n: nat): nat {
    (4 * (FIXED_BYTES + 16 * n) + 2) / 3
  }

  function PaddedLength(n: nat): nat {
    4 * ((FIXED_BYTES + 16 * n + 2) / 3)
  }

  lemma LettersOfBytes(letters: nat, bytes: nat)
    requires 4 * bytes <= 3 * letters < 4 * bytes + 4 && letters % 4 != 1
    ensures letters == (4 * bytes + 2) / 3
    ensures (letters + 3) / 4 * 4 == 4 * ((bytes + 2) / 3)
  {
    var q, r := letters / 4, letters % 4;
    assert letters == 4 * q + r;
    if r == 0 {
      assert bytes == 3 * q;
    } else if r == 2 {
      assert bytes == 3 * q + 1;
    } else {
      assert bytes == 3 * q + 2;
    }
  }

  lemma LengthsApart(m: nat, n: nat)
    ensures m == n <==> Letters(m) == Letters(n)
    ensures m == n <==> PaddedLength(m) == PaddedLength(n)
  {
  }

  lemma AlignedBytes(raw: seq<Byte>)
    requires ParseRaw(raw).Ok?
    ensures |raw| == FIXED_BYTES + 16 * ParseRaw(raw).info.blocks
  {
  }

  lemma AcceptedLength(value: string, limit: int)
    requires Parse(value, limit).Ok?
    ensures var letters, blocks := |StripPadding(Trim(value))|, Parse(value, limit).info.blocks;
            letters == Letters(blocks) && (letters + 3) / 4 * 4 == PaddedLength(blocks)
  {
    hide DecodeRaw, ParseRaw, Trim, StripPadding;
    var raw := DecodeRaw(StripPadding(Trim(value)));
    AlignedBytes(raw.value);
    NoSingleLetter(StripPadding(Trim(value)));
    LettersOfBytes(|StripPadding(Trim(value))|, |raw.value|);
  }

  /** For every token the parser accepts, its number of letters and its number of blocks
      determine each other, so selecting by blocks and by canonical length is the same test. */
  lemma BlocksAreLength(value: string, limit: int, n: nat)
    requires Parse(value, limit).Ok?
    ensures var letters, blocks := |StripPadding(Trim(value))|, Parse(value, limit).info.blocks;
            && (blocks == n <==> letters == Letters(n))
            && (blocks == n <==> (letters + 3) / 4 * 4 == PaddedLength(n))
  {
    hide Parse, Trim, StripPadding;
    AcceptedLength(value, limit);
    LengthsApart(Parse(value, limit).info.blocks, n);
  }

  /** A longer ciphertext always has a longer text, and the written text has exactly this length. */
  lemma PaddedLengthLaw(m: nat, n: nat, raw: seq<Byte>)
    requires m < n && |raw| == FIXED_BYTES + 16 * n
    ensures PaddedLength(m) < PaddedLength(n)
    ensures |EncodeRaw(raw)| == Letters(n) <= PaddedLength(n) < Letters(n) + 3
    ensures PaddedLength(n) % 4 == 0
  {
    hide EncodeRaw;
  }

  /** The lengths that the documentation gives for 10, 11, 12 and 13 blocks. */
  lemma DocumentedLengths()
    ensures PaddedLength(10) == 292 && PaddedLength(11) == 312 && PaddedLength(12) == 332 && PaddedLength(13) == 356
  {
  }
}
