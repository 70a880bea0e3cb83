/** When does the way the host cuts a stream into chunks not matter? */
module Splits {
  import opened Sse

  function AllButLast(s: string): string {
    if s == "" then "" else s[..|s| - 1]
  }

  /** A split into non-empty chunks. */
  ghost predicate SplitOf(chunks: seq<string>, stream: string) {
    (forall i :: 0 <= i < |chunks| ==> chunks[i] != "") && Concat(chunks) == stream
  }

  /** Every split is read as the whole. */
  ghost predicate SplitInvariant(json: Json, stream: string) {
    forall chunks: seq<string> | SplitOf(chunks, stream) :: FeedAll(json, chunks) == Whole(stream)
  }

  /** Every split that leaves room for its chunks is. */
  ghost predicate FitInvariant(json: Json, stream: string) {
    forall chunks: seq<string> | SplitOf(chunks, stream) && Fits(chunks) :: FeedAll(json, chunks) == Whole(stream)
  }

  /** The condition on the bytes alone: no CR CR LF that more bytes follow, and no prefix whose
      pending text is a JSON text. */
  ghost predicate SplitSafe(json: Json, stream: string) {
    Clean(AllButLast(stream)) && Unframed(json, stream)
  }

  ghost predicate Unframed(json: Json, stream: string) {
    forall i | 0 < i <= |stream| :: !json.valid(Pending(stream[..i]))
  }

  /** No proper prefix fills the buffer with pending text. */
  predicate Roomy(stream: string) {
    forall i | 0 <= i < |stream| :: |Pending(stream[..i])| < CARRY_LIMIT
  }

  lemma {:induction false} ConcatPrefix(chunks: seq<string>, i: nat)
    requires i <= |chunks|
    ensures Concat(chunks[..i]) <= Concat(chunks)
    ensures (forall k :: 0 <= k < |chunks| ==> chunks[k] != "") ==> i <= |Concat(chunks[..i])|
  {
    if i == |chunks| {
      assert chunks[..i] == chunks;
      if i > 0 { ConcatPrefix(chunks[..i - 1], i - 1); assert chunks[..i - 1][..i - 1] == chunks[..i - 1]; }
    } else {
      ConcatPrefix(chunks[..|chunks| - 1], i);
      assert chunks[..|chunks| - 1][..i] == chunks[..i];
    }
  }

  // ----- safe streams -----

  lemma SafeIsEnough(json: Json, chunks: seq<string>)
    requires forall i :: 0 <= i < |chunks| ==> chunks[i] != ""
    requires SplitSafe(json, Concat(chunks)) && Fits(chunks)
    ensures FeedAll(json, chunks) == Whole(Concat(chunks))
  {
    var stream := Concat(chunks);
    forall i | 0 < i <= |chunks| ensures !json.valid(Pending(Concat(chunks[..i]))) {
      ConcatPrefix(chunks, i);
      assert Concat(chunks[..i]) == stream[..|Concat(chunks[..i])|];
    }
    if chunks != [] {
      var p := Concat(chunks[..|chunks| - 1]);
      assert p == AllButLast(stream)[..|p|];
      CleanPart(AllButLast(stream), 0, |p|);
    }
    SplitInvariance(json, chunks);
  }

  // ----- how long the pending text can get -----

  lemma TailAppends(s: string, rest: string)
    ensures Frames(s + rest).tail == Frames(Frames(s).tail + rest).tail
  {
    hide Frames, Joined;
    var cut := Frames(s);
    FramesRebuild(s);
    Assoc(Joined(cut.frames), cut.tail, rest);
    FramesResume(s, cut.tail + rest);
  }

  lemma TailNoLonger(s: string)
    ensures |Frames(s).tail| <= |s|
  {
    FramesRebuild(s);
  }

  /** A CR at the end stays pending. */
  lemma CRPends(s: string)
    ensures Frames(s + "\r").tail == Frames(s).tail + "\r"
  {
    TailAppends(s, "\r");
    TailIsUnbroken(s);
    var t := Frames(s).tail + "\r";
    forall i ensures !BlankAt(t, i) {
      assert 0 <= i < |t| - 2 ==> !BlankAt(Frames(s).tail, i);
    }
    assert Break(t).None?;
  }

  lemma PairCloses(y: string)
    ensures Normalize(y + "\r" + "\n") == Normalize(y) + "\n" && Normalize(y + "\r") == Normalize(y) + "\r"
  {
    assert Normalize("\r\n") == "\n" && Normalize("\r") == "\r";
    hide Normalize;
    assert y + "\r" + "\n" == y + "\r\n";
    NormalizeSplits(y, "\r\n");
    NormalizeSplits(y, "\r");
  }

  lemma LastByte(x: string)
    requires x != ""
    ensures x == AllButLast(x) + [x[|x| - 1]]
  {
  }

  /** The two ways in which a byte goes through the rewriting. */
  lemma NormalizeByte(x: string, c: char)
    ensures x != "" && x[|x| - 1] == '\r' && c == '\n' ==>
              Normalize(x + [c]) == Normalize(AllButLast(x)) + "\n" && Normalize(x) == Normalize(AllButLast(x)) + "\r"
    ensures !(x != "" && x[|x| - 1] == '\r' && c == '\n') ==> Normalize(x + [c]) == Normalize(x) + [c]
  {
    hide Normalize;
    if x != "" && x[|x| - 1] == '\r' && c == '\n' {
      LastByte(x);
      assert [x[|x| - 1]] == "\r" && [c] == "\n";
      PairCloses(AllButLast(x));
    } else {
      OneByte(c);
      NormalizeSplits(x, [c]);
    }
  }

  lemma OneByte(c: char)
    ensures Normalize([c]) == [c]
  {
    assert [c][1..] == "";
  }

  lemma PendingByte(x: string, c: char)
    ensures |Pending(x + [c])| <= |Pending(x)| + 1
  {
    hide Frames, Normalize;
    NormalizeByte(x, c);
    if x != "" && x[|x| - 1] == '\r' && c == '\n' {
      var n := Normalize(AllButLast(x));
      TailAppends(n, "\n");
      TailNoLonger(Frames(n).tail + "\n");
      CRPends(n);
    } else {
      TailAppends(Normalize(x), [c]);
      TailNoLonger(Frames(Normalize(x)).tail + [c]);
    }
  }

  lemma {:induction false} PendingGrows(x: string, y: string)
    ensures |Pending(x + y)| <= |Pending(x)| + |y|
  {
    hide Pending;
    if y == "" {
      assert x + y == x;
    } else {
      var z := y[..|y| - 1];
      PendingGrows(x, z);
      assert x + y == (x + z) + [y[|y| - 1]];
      PendingByte(x + z, y[|y| - 1]);
    }
  }

  /** If any split of a stream fits, then its bytes do. */
  lemma {:induction false} FitsIsRoomy(chunks: seq<string>)
    requires (forall i :: 0 <= i < |chunks| ==> chunks[i] != "") && Fits(chunks)
    ensures Roomy(Concat(chunks))
  {
    hide Pending;
    if chunks != [] {
      var n := |chunks| - 1;
      var init, last := chunks[..n], chunks[n];
      InitFits(chunks);
      FitsIsRoomy(init);
      var x, stream := Concat(init), Concat(chunks);
      assert |Pending(x)| + |last| <= CARRY_LIMIT;
      forall i | 0 <= i < |stream| ensures |Pending(stream[..i])| < CARRY_LIMIT {
        if i < |x| {
          assert stream[..i] == x[..i];
        } else {
          assert stream[..i] == x + last[..i - |x|];
          PendingGrows(x, last[..i - |x|]);
        }
      }
    }
  }

  lemma InitFits(chunks: seq<string>)
    requires chunks != [] && Fits(chunks)
    ensures Fits(chunks[..|chunks| - 1])
  {
    hide Pending;
    var init := chunks[..|chunks| - 1];
    forall i | 0 <= i < |init| ensures |Pending(Concat(init[..i]))| + |init[i]| <= CARRY_LIMIT {
      assert init[..i] == chunks[..i];
    }
  }

  // ----- the split into single bytes -----

  function Singles(stream: string): (r: seq<string>)
    ensures |r| == |stream| && forall i :: 0 <= i < |r| ==> r[i] == [stream[i]]
  {
    if stream == "" then [] else Singles(stream[..|stream| - 1]) + [[stream[|stream| - 1]]]
  }

  lemma {:induction false} SinglesSplit(stream: string)
    ensures SplitOf(Singles(stream), stream)
  {
    if stream != "" {
      var init := stream[..|stream| - 1];
      SinglesSplit(init);
      assert Singles(stream)[..|stream| - 1] == Singles(init);
      assert init + [stream[|stream| - 1]] == stream;
    }
  }

  lemma SinglesPrefix(stream: string, i: nat)
    requires i <= |stream|
    ensures Singles(stream)[..i] == Singles(stream[..i])
  {
  }

  lemma RoomySingles(stream: string)
    requires Roomy(stream)
    ensures Fits(Singles(stream))
  {
    hide Pending, Concat, Singles;
    forall i | 0 <= i < |stream| ensures |Pending(Concat(Singles(stream)[..i]))| + |Singles(stream)[i]| <= CARRY_LIMIT {
      SinglesPrefix(stream, i);
      SinglesSplit(stream[..i]);
    }
  }

  /** What the reader has handed on and keeps after the first k bytes, one at a time. */
  function ByBytes(json: Json, stream: string): Observed {
    FeedAll(json, Singles(stream))
  }

  function Fed(json: Json, o: Observed, c: char): Observed {
    var last := Feed(json, o.carry, [c]);
    Observed(o.frames + last.frames, o.raws + last.raws, last.carry)
  }

  lemma ByBytesNext(json: Json, x: string, c: char)
    ensures ByBytes(json, x + [c]) == Fed(json, ByBytes(json, x), c)
  {
    hide Feed;
    assert (x + [c])[..|x|] == x && (x + [c])[|x|] == c;
    assert Singles(x + [c])[..|x|] == Singles(x);
  }

  // ----- a byte that is lost stays lost -----

  lemma JoinedAppends(f: seq<string>, g: seq<string>)
    ensures Joined(f + g) == Joined(f) + Joined(g)
  {
    if f == [] {
      assert f + g == g;
    } else {
      assert (f + g)[1..] == f[1..] + g;
      JoinedAppends(f[1..], g);
    }
  }

  /** The text is at most as long as its pieces, so a lost byte shows in the observation. */
  function Weight(o: Observed): nat {
    |Joined(o.frames)| + |o.carry|
  }

  lemma WholeWeight(stream: string)
    ensures Weight(Whole(stream)) == |Normalize(stream)|
  {
    FramesRebuild(Normalize(stream));
  }

  predicate EndsInCR(s: string) {
    s != "" && s[|s| - 1] == '\r'
  }

  /** The reading of x has lost something for good: a JSON text was taken out of the stream, or bytes are missing. */
  predicate Lost(o: Observed, x: string) {
    || o.raws != []
    || Weight(o) + 1 + (if EndsInCR(x) && !EndsInCR(o.carry) then 1 else 0) <= |Normalize(x)|
  }

  lemma LostDiffers(o: Observed, x: string)
    requires Lost(o, x)
    ensures o != Whole(x)
  {
    WholeWeight(x);
    hide Normalize, Frames;
  }

  lemma NormalizeLength(x: string, c: char)
    ensures |Normalize(x + [c])| == |Normalize(x)| + if EndsInCR(x) && c == '\n' then 0 else 1
  {
    NormalizeByte(x, c);
    hide Normalize;
  }

  /** What one more byte does to the weight, when there is room for it. */
  lemma FedWeight(json: Json, o: Observed, c: char)
    requires |o.carry| < CARRY_LIMIT
    ensures var n := Fed(json, o, c);
            || n.raws != []
            || (&& Weight(n) <= Weight(o) + (if EndsInCR(o.carry) && c == '\n' then 0 else 1)
                && (c == '\r' ==> EndsInCR(n.carry)))
  {
    var cut := Frames(Normalize(o.carry + [c]));
    NormalizeLength(o.carry, c);
    FramesRebuild(Normalize(o.carry + [c]));
    JoinedAppends(o.frames, cut.frames);
    if c == '\r' {
      NormalizeByte(o.carry, c);
      CRPends(Normalize(o.carry));
    }
    hide Frames, Normalize, Joined;
  }

  lemma FedOverflow(json: Json, o: Observed, c: char)
    requires |o.carry| == CARRY_LIMIT
    ensures Weight(Fed(json, o, c)) == Weight(o) - CARRY_LIMIT && Fed(json, o, c).carry == ""
  {
    assert o.frames + [] == o.frames;
  }

  lemma LostStays(json: Json, o: Observed, x: string, c: char)
    requires Lost(o, x) && |o.carry| <= CARRY_LIMIT
    ensures Lost(Fed(json, o, c), x + [c])
  {
    NormalizeLength(x, c);
    hide Normalize, Weight, Feed;
    if o.raws == [] {
      if |o.carry| == CARRY_LIMIT {
        FedOverflow(json, o, c);
      } else {
        FedWeight(json, o, c);
      }
    }
  }

  // ----- the first loss -----

  lemma DirtyNormal(p: string)
    ensures Normalize(p + "\r\r\n") == Normalize(p) + "\r" + "\n"
  {
    assert p + "\r\r\n" == (p + "\r") + "\r\n";
    NormalizeSplits(p, "\r");
    NormalizeSplits(p + "\r", "\r\n");
    assert Normalize("\r") == "\r" && Normalize("\r\n") == "\n";
  }

  /** After CR CR LF the pending text ends in CR LF. */
  lemma DirtyPending(p: string)
    ensures var t := Pending(p + "\r\r\n"); |t| >= 2 && t[|t| - 2..] == "\r\n"
  {
    var x := p + "\r\r\n";
    DirtyNormal(p);
    FramesRebuild(Normalize(x));
    if Frames(Normalize(x)).frames != [] {
      JoinedEnds(Frames(Normalize(x)).frames);
    }
    EndsInTail(Normalize(p), Normalize(x), Joined(Frames(Normalize(x)).frames), Pending(x));
  }

  lemma EndsInTail(u: string, n: string, head: string, t: string)
    requires n == head + t && n == u + "\r" + "\n"
    requires head != "" ==> |head| >= 2 && head[|head| - 2] == '\n' && head[|head| - 1] == '\n'
    ensures |t| >= 2 && t[|t| - 2..] == "\r\n"
  {
    assert n[|n| - 2] == '\r' && n[|n| - 1] == '\n';
  }

  lemma PairShrinks(t: string)
    requires |t| >= 2 && t[|t| - 2..] == "\r\n"
    ensures |Normalize(t)| < |t|
  {
    var u := t[..|t| - 2];
    assert t == u + "\r\n";
    NormalizeSplits(u, "\r\n");
    assert Normalize("\r\n") == "\n";
  }

  /** Rewriting the pending text again drops a byte of the stream. */
  lemma DirtyLosesByte(x: string, y: string)
    requires |Pending(x)| >= 2 && Pending(x)[|Pending(x)| - 2..] == "\r\n"
    requires x != "" && x[|x| - 1] == '\n'
    ensures |Joined(Frames(Normalize(x)).frames)| + |Normalize(Pending(x) + y)| < |Normalize(x + y)|
  {
    var t := Pending(x);
    FramesRebuild(Normalize(x));
    PairShrinks(t);
    assert t[|t| - 1] == t[|t| - 2..][1];
    NormalizeSplits(t, y);
    NormalizeSplits(x, y);
  }

  /** The bytes so far are read as a whole, and nothing in them is unsafe but perhaps their end. */
  ghost predicate Sound(json: Json, x: string) {
    ByBytes(json, x) == Whole(x) && Clean(AllButLast(x)) && Unframed(json, x)
  }

  /** A prefix that ends in CR CR LF loses a byte with the next one. */
  lemma DirtyEndLoses(json: Json, x: string, c: char)
    requires ByBytes(json, x) == Whole(x) && |Pending(x)| < CARRY_LIMIT
    requires |x| >= 3 && x == x[..|x| - 3] + "\r\r\n"
    ensures Lost(Fed(json, Whole(x), c), x + [c])
  {
    DirtyPending(x[..|x| - 3]);
    DirtyLosesByte(x, [c]);
    var cut := Frames(Normalize(Pending(x) + [c]));
    FramesRebuild(Normalize(Pending(x) + [c]));
    JoinedAppends(Frames(Normalize(x)).frames, cut.frames);
    FedWeight(json, Whole(x), c);
    hide Frames, Normalize, Joined, Clean;
  }

  lemma CleanGoesOn(json: Json, x: string, c: char)
    requires ByBytes(json, x) == Whole(x) && Clean(x) && |Pending(x)| < CARRY_LIMIT
    ensures var n := Fed(json, Whole(x), c);
            if json.valid(Pending(x + [c])) then n.raws != [] else n == Whole(x + [c])
  {
    FeedContinues(x, [c]);
    hide Frames, Normalize, Clean;
  }

  lemma DirtyEnd(x: string)
    requires Clean(AllButLast(x)) && !Clean(x)
    ensures |x| >= 3 && x == x[..|x| - 3] + "\r\r\n"
  {
    var i :| 0 <= i < |x| && DirtyAt(x, i);
    if i < |x| - 3 {
      assert DirtyAt(AllButLast(x), i);
    }
  }

  lemma UnframedNext(json: Json, x: string, c: char)
    requires Unframed(json, x) && !json.valid(Pending(x + [c]))
    ensures Unframed(json, x + [c])
  {
    hide Pending;
    forall i | 0 < i <= |x + [c]| ensures !json.valid(Pending((x + [c])[..i])) {
      if i <= |x| {
        assert (x + [c])[..i] == x[..i];
      } else {
        assert (x + [c])[..i] == x + [c];
      }
    }
  }

  lemma SoundGoesOn(json: Json, x: string, c: char)
    requires Sound(json, x) && |Pending(x)| < CARRY_LIMIT
    ensures Sound(json, x + [c]) || Lost(ByBytes(json, x + [c]), x + [c])
  {
    hide Pending, Clean, Unframed, ByBytes, Whole, Feed;
    ByBytesNext(json, x, c);
    assert AllButLast(x + [c]) == x;
    if Clean(x) {
      CleanGoesOn(json, x, c);
      if !json.valid(Pending(x + [c])) { UnframedNext(json, x, c); }
    } else {
      DirtyEnd(x);
      DirtyEndLoses(json, x, c);
    }
  }

  /** Read byte by byte, a stream stays sound or loses something for good. */
  lemma {:induction false} SoundOrLost(json: Json, x: string)
    requires Roomy(x)
    ensures Sound(json, x) || Lost(ByBytes(json, x), x)
  {
    hide Pending, Sound, Lost, ByBytes, Feed;
    if x == "" {
      NothingIsSound(json);
    } else {
      var p, c := x[..|x| - 1], x[|x| - 1];
      assert x == p + [c];
      RoomyPrefix(x);
      SoundOrLost(json, p);
      if Sound(json, p) {
        assert p == x[..|x| - 1];
        SoundGoesOn(json, p, c);
      } else {
        ByBytesNext(json, p, c);
        ByBytesBounded(json, p);
        LostStays(json, ByBytes(json, p), p, c);
      }
    }
  }

  lemma ByBytesBounded(json: Json, x: string)
    ensures |ByBytes(json, x).carry| <= CARRY_LIMIT
  {
    CarryBounded(json, Singles(x));
  }

  lemma RoomyPrefix(x: string)
    requires x != "" && Roomy(x)
    ensures Roomy(x[..|x| - 1]) && |Pending(x[..|x| - 1])| < CARRY_LIMIT
  {
    hide Pending;
    var p := x[..|x| - 1];
    forall i | 0 <= i < |p| ensures |Pending(p[..i])| < CARRY_LIMIT { assert p[..i] == x[..i]; }
  }

  lemma NothingIsSound(json: Json)
    ensures Sound(json, "")
  {
  }

  // ----- the exact conditions -----

  /** The reader is independent of the split, among the splits that leave it room, exactly on the safe streams;
      and a stream with a prefix that fills the buffer has no such split at all. */
  lemma FitInvariantIffSafe(json: Json, stream: string)
    ensures FitInvariant(json, stream) <==> SplitSafe(json, stream) || !Roomy(stream)
    ensures !Roomy(stream) ==> !exists chunks: seq<string> :: SplitOf(chunks, stream) && Fits(chunks)
  {
    hide Pending, FeedAll, Fits, Roomy, Concat, Clean, Unframed;
    forall chunks: seq<string> | SplitOf(chunks, stream) && Fits(chunks) ensures Roomy(stream) {
      FitsIsRoomy(chunks);
    }
    if SplitSafe(json, stream) {
      forall chunks: seq<string> | SplitOf(chunks, stream) && Fits(chunks)
        ensures FeedAll(json, chunks) == Whole(stream)
      {
        SafeIsEnough(json, chunks);
      }
    } else if Roomy(stream) {
      UnsafeDiffers(json, stream);
    }
  }

  lemma UnsafeDiffers(json: Json, stream: string)
    requires Roomy(stream) && !SplitSafe(json, stream)
    ensures !FitInvariant(json, stream)
  {
    hide Pending, FeedAll, Fits, Roomy, Concat, Clean, Unframed, Lost;
    SoundOrLost(json, stream);
    LostDiffers(ByBytes(json, stream), stream);
    SinglesSplit(stream);
    RoomySingles(stream);
  }

  lemma ShortFits(chunks: seq<string>)
    requires |Concat(chunks)| <= CARRY_LIMIT
    ensures Fits(chunks)
  {
    forall i | 0 <= i < |chunks| ensures |Pending(Concat(chunks[..i]))| + |chunks[i]| <= CARRY_LIMIT {
      var p := Concat(chunks[..i]);
      TailNoLonger(Normalize(p));
      assert chunks[..i + 1][..i] == chunks[..i];
      ConcatPrefix(chunks, i + 1);
    }
  }

  lemma ShortIsRoomy(stream: string)
    requires |stream| <= CARRY_LIMIT
    ensures Roomy(stream)
  {
    forall i | 0 <= i < |stream| ensures |Pending(stream[..i])| < CARRY_LIMIT { TailNoLonger(Normalize(stream[..i])); }
  }

  lemma LongOverflows(json: Json, stream: string)
    requires |stream| > CARRY_LIMIT
    ensures SplitOf([stream], stream) && FeedAll(json, [stream]) != Whole(stream)
  {
    assert [stream][..0] == [] && "" + stream == stream;
    WholeWeight(stream);
    assert Normalize(stream) != "";
    assert FeedAll(json, [stream]) == Observed([] + [], [] + [], "");
  }

  /** The reader is independent of every split exactly on the safe streams that fit into its buffer. */
  lemma SplitInvariantIffSafe(json: Json, stream: string)
    ensures SplitInvariant(json, stream) <==> SplitSafe(json, stream) && |stream| <= CARRY_LIMIT
  {
    hide Pending, FeedAll, Fits, Roomy, Concat, SplitSafe, Whole;
    if |stream| > CARRY_LIMIT {
      LongOverflows(json, stream);
    } else {
      ShortIsRoomy(stream);
      FitInvariantIffSafe(json, stream);
      forall chunks: seq<string> | SplitOf(chunks, stream) ensures Fits(chunks) { ShortFits(chunks); }
    }
  }
}
