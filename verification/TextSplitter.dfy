/**
 Splitting plain text into chunks of bounded size, at sentence ends where possible
 (chunking/text_splitting.go). Texts are UTF-8 bytes, as in the source: sizes are byte
 counts, and trimming removes encoded Unicode white space.
 */
module TextSplitter {
  import opened ByteStrings
  import opened Collections

  // ---------------------------------------------------------------- white space

  predicate Space1(a: Byte) {
    0x09 <= a <= 0x0D || a == 0x20
  }

  predicate Space2(a: Byte, b: Byte) {
    a == 0xC2 && (b == 0x85 || b == 0xA0)
  }

  predicate Space3(a: Byte, b: Byte, c: Byte) {
    || (a == 0xE1 && b == 0x9A && c == 0x80)
    || (a == 0xE2 && b == 0x80 && (0x80 <= c <= 0x8A || c == 0xA8 || c == 0xA9 || c == 0xAF))
    || (a == 0xE2 && b == 0x81 && c == 0x9F)
    || (a == 0xE3 && b == 0x80 && c == 0x80)
  }

  /** The length of the encoded white-space character s starts with, or 0. */
  function LeadingSpace(s: Bytes): (k: nat)
    ensures k <= |s|
  {
    if |s| >= 1 && Space1(s[0]) then 1
    else if |s| >= 2 && Space2(s[0], s[1]) then 2
    else if |s| >= 3 && Space3(s[0], s[1], s[2]) then 3
    else 0
  }

  /** The length of the encoded white-space character s ends with, or 0. */
  function TrailingSpace(s: Bytes): (k: nat)
    ensures k <= |s|
  {
    var n := |s|;
    if n >= 1 && Space1(s[n - 1]) then 1
    else if n >= 2 && Space2(s[n - 2], s[n - 1]) then 2
    else if n >= 3 && Space3(s[n - 3], s[n - 2], s[n - 1]) then 3
    else 0
  }

  function TrimLeft(s: Bytes): Bytes {
    if LeadingSpace(s) == 0 then s else TrimLeft(s[LeadingSpace(s)..])
  }

  function TrimRight(s: Bytes): Bytes {
    if TrailingSpace(s) == 0 then s else TrimRight(s[..|s| - TrailingSpace(s)])
  }

  function TrimSpace(s: Bytes): Bytes {
    TrimRight(TrimLeft(s))
  }

  /** s is white space only. */
  predicate SpaceRun(s: Bytes) {
    s == [] || (LeadingSpace(s) > 0 && SpaceRun(s[LeadingSpace(s)..]))
  }

  lemma LeadingSpaceOfConcat(a: Bytes, b: Bytes)
    requires LeadingSpace(a) > 0
    ensures LeadingSpace(a + b) == LeadingSpace(a)
  {
  }

  lemma {:induction false} SpaceRunConcat(a: Bytes, b: Bytes)
    requires SpaceRun(a) && SpaceRun(b)
    ensures SpaceRun(a + b)
    decreases |a|
  {
    if a == [] {
      assert a + b == b;
    } else {
      SpaceRunConcat(a[LeadingSpace(a)..], b);
      SpaceRunCons(a, b);
    }
  }

  lemma SpaceRunCons(a: Bytes, b: Bytes)
    requires LeadingSpace(a) > 0 && SpaceRun(a[LeadingSpace(a)..] + b)
    ensures SpaceRun(a + b)
  {
    LeadingSpaceOfConcat(a, b);
    assert (a + b)[LeadingSpace(a)..] == a[LeadingSpace(a)..] + b;
  }

  lemma LeadingSpaceIsRun(s: Bytes)
    ensures SpaceRun(s[..LeadingSpace(s)])
  {
    var k := LeadingSpace(s);
    if k > 0 {
      assert LeadingSpace(s[..k]) == k;
      assert s[..k][k..] == [];
    }
  }

  /** Trimming cuts white space off both ends and nothing else. */
  lemma {:induction false} TrimRightCuts(s: Bytes) returns (right: Bytes)
    ensures CutsRight(s, right)
    decreases |s|
  {
    var k := TrailingSpace(s);
    if k == 0 {
      right := [];
    } else {
      var rest := TrimRightCuts(s[..|s| - k]);
      right := rest + s[|s| - k..];
      CutsMoreRight(s, rest);
    }
  }

  predicate CutsRight(s: Bytes, right: Bytes) {
    s == TrimRight(s) + right && SpaceRun(right)
  }

  lemma CutsMoreRight(s: Bytes, rest: Bytes)
    requires TrailingSpace(s) > 0 && CutsRight(s[..|s| - TrailingSpace(s)], rest)
    ensures CutsRight(s, rest + s[|s| - TrailingSpace(s)..])
  {
    var k := TrailingSpace(s);
    TrailingSpaceIsRun(s);
    SpaceRunConcat(rest, s[|s| - k..]);
    CutAgain(s, |s| - k, TrimRight(s[..|s| - k]), rest);
  }

  lemma CutAgain(s: Bytes, n: nat, body: Bytes, rest: Bytes)
    requires n <= |s| && s[..n] == body + rest
    ensures s == body + (rest + s[n..])
  {
    assert s == s[..n] + s[n..];
    Assoc(body, rest, s[n..]);
  }

  lemma TrailingSpaceIsRun(s: Bytes)
    ensures SpaceRun(s[|s| - TrailingSpace(s)..])
  {
    var k := TrailingSpace(s);
    var last := s[|s| - k..];
    if k > 0 {
      assert LeadingSpace(last) == k;
      assert last[k..] == [];
    }
  }

  lemma {:induction false} TrimLeftCuts(s: Bytes) returns (left: Bytes)
    ensures CutsLeft(s, left)
    decreases |s|
  {
    var k := LeadingSpace(s);
    if k == 0 {
      left := [];
      assert [] + TrimLeft(s) == s;
    } else {
      var rest := TrimLeftCuts(s[k..]);
      left := s[..k] + rest;
      CutsMoreLeft(s, rest);
    }
  }

  predicate CutsLeft(s: Bytes, left: Bytes) {
    s == left + TrimLeft(s) && SpaceRun(left)
  }

  lemma CutsMoreLeft(s: Bytes, rest: Bytes)
    requires LeadingSpace(s) > 0 && CutsLeft(s[LeadingSpace(s)..], rest)
    ensures CutsLeft(s, s[..LeadingSpace(s)] + rest)
  {
    var k := LeadingSpace(s);
    LeadingSpaceIsRun(s);
    SpaceRunConcat(s[..k], rest);
    CutTwice(s, s[..k], rest, TrimLeft(s[k..]));
  }

  lemma CutTwice(s: Bytes, first: Bytes, rest: Bytes, tail: Bytes)
    requires first <= s && s[|first|..] == rest + tail
    ensures s == (first + rest) + tail
  {
    assert s == first + s[|first|..];
    Assoc(first, rest, tail);
  }

  lemma TrimSpaceCuts(s: Bytes) returns (left: Bytes, right: Bytes)
    ensures s == left + TrimSpace(s) + right && SpaceRun(left) && SpaceRun(right)
    ensures |TrimSpace(s)| <= |s|
  {
    left := TrimLeftCuts(s);
    right := TrimRightCuts(TrimLeft(s));
    assert left + TrimSpace(s) + right == left + (TrimSpace(s) + right);
  }

  // ---------------------------------------------------------------- splitting

  predicate IsSentenceEnd(c: Byte) {
    c == 0x2E || c == 0x21 || c == 0x3F
  }

  /** Three quarters of the chunk size, rounded down. */
  function LowerBound(size: nat): nat {
    3 * size / 4
  }

  /** The last sentence end before position i, or -1. */
  function LastSentenceEnd(s: Bytes, i: nat): int
    requires i <= |s|
  {
    if i == 0 then -1 else if IsSentenceEnd(s[i - 1]) then i - 1 else LastSentenceEnd(s, i - 1)
  }

  method LastIndexOfSentenceEnd(s: Bytes) returns (j: int)
    ensures j == LastSentenceEnd(s, |s|)
  {
    var i := |s|;
    while i > 0
      invariant 0 <= i <= |s| && LastSentenceEnd(s, |s|) == LastSentenceEnd(s, i)
    {
      i := i - 1;
      if IsSentenceEnd(s[i]) { return i; }
    }
    j := -1;
  }

  /** The index of the last byte of the next chunk. */
  function Cut(remaining: Bytes, size: nat): (c: nat)
    requires 1 <= size < |remaining|
    ensures c < size
  {
    var e := LastSentenceEnd(remaining, size - 1);
    LastSentenceEndFits(remaining, size - 1);
    if e < LowerBound(size) then size - 1 else e
  }

  lemma {:induction false} LastSentenceEndFits(s: Bytes, i: nat)
    requires i <= |s|
    ensures -1 <= LastSentenceEnd(s, i) < i
    ensures LastSentenceEnd(s, i) >= 0 ==> IsSentenceEnd(s[LastSentenceEnd(s, i)])
    ensures forall k :: LastSentenceEnd(s, i) < k < i ==> !IsSentenceEnd(s[k])
  {
    if i > 0 { LastSentenceEndFits(s, i - 1); }
  }

  /** The next chunk. */
  function Head(remaining: Bytes, size: nat): (head: Bytes)
    requires 1 <= size < |remaining|
    ensures |head| <= size
  {
    var c := Cut(remaining, size);
    TrimShortens(remaining[..c + 1]);
    TrimSpace(remaining[..c + 1])
  }

  /** What is left after the next chunk. */
  function Rest(remaining: Bytes, size: nat): (rest: Bytes)
    requires 1 <= size < |remaining|
    ensures |rest| < |remaining|
  {
    var c := Cut(remaining, size);
    TrimShortens(remaining[c + 1..]);
    TrimSpace(remaining[c + 1..])
  }

  function Chunks(remaining: Bytes, size: nat): seq<Bytes>
    requires size >= 1
    decreases |remaining|
  {
    if |remaining| <= size then [remaining]
    else [Head(remaining, size)] + Chunks(Rest(remaining, size), size)
  }

  lemma TrimShortens(s: Bytes)
    ensures |TrimSpace(s)| <= |s|
  {
    var _, _ := TrimSpaceCuts(s);
  }

  method TakeChunk(remaining: Bytes, size: nat) returns (head: Bytes, rest: Bytes)
    requires 1 <= size < |remaining|
    ensures head == Head(remaining, size) && rest == Rest(remaining, size)
  {
    var sentenceEnd := LastIndexOfSentenceEnd(remaining[..size - 1]);
    SentenceEndOfPrefix(remaining, size - 1);
    LastSentenceEndFits(remaining, size - 1);
    if sentenceEnd == -1 || sentenceEnd < LowerBound(size) {
      sentenceEnd := size - 1;
    }
    head := TrimSpace(remaining[..sentenceEnd + 1]);
    rest := TrimSpace(remaining[sentenceEnd + 1..]);
  }

  method SplitPlaintextOnSentences(text: Bytes, size: nat) returns (chunks: seq<Bytes>)
    requires size >= 1
    ensures chunks == Chunks(text, size)
  {
    chunks := [];
    var remaining := text;
    while |remaining| > size
      invariant Chunks(text, size) == chunks + Chunks(remaining, size)
      decreases |remaining|
    {
      var head, rest := TakeChunk(remaining, size);
      NextChunk(chunks, remaining, size);
      chunks := chunks + [head];
      remaining := rest;
    }
    chunks := chunks + [remaining];
  }

  lemma NextChunk(chunks: seq<Bytes>, remaining: Bytes, size: nat)
    requires 1 <= size < |remaining|
    ensures chunks + Chunks(remaining, size) == (chunks + [Head(remaining, size)]) + Chunks(Rest(remaining, size), size)
  {
    Assoc(chunks, [Head(remaining, size)], Chunks(Rest(remaining, size), size));
  }

  lemma {:induction false} SentenceEndOfPrefix(s: Bytes, i: nat)
    requires i <= |s|
    ensures LastSentenceEnd(s[..i], i) == LastSentenceEnd(s, i)
  {
    SentenceEndOfPrefixUpTo(s, i, i);
  }

  lemma {:induction false} SentenceEndOfPrefixUpTo(s: Bytes, i: nat, k: nat)
    requires k <= i <= |s|
    ensures LastSentenceEnd(s[..i], k) == LastSentenceEnd(s, k)
  {
    if k > 0 { SentenceEndOfPrefixUpTo(s, i, k - 1); }
  }

  // ".!?"
  const PUNCTUATION: seq<Byte> := [0x2E, 0x21, 0x3F]

  /** A chunk ends with the last sentence that ends in the last quarter of its window
      before the final byte, and is cut at its full size only if there is none. */
  lemma CutPrefersSentences(remaining: Bytes, size: nat)
    requires 1 <= size < |remaining|
    ensures var c := Cut(remaining, size);
            if exists k :: 3 * size / 4 <= k < size - 1 && remaining[k] in PUNCTUATION
            then 3 * size / 4 <= c < size - 1 && remaining[c] in PUNCTUATION &&
                 forall k :: c < k < size - 1 ==> remaining[k] !in PUNCTUATION
            else c == size - 1
  {
    LastSentenceEndFits(remaining, size - 1);
  }

  // ---------------------------------------------------------------- what splitting keeps

  lemma {:induction false} ChunksFit(remaining: Bytes, size: nat)
    requires size >= 1
    ensures forall i :: 0 <= i < |Chunks(remaining, size)| ==> |Chunks(remaining, size)[i]| <= size
    decreases |remaining|
  {
    if |remaining| > size {
      ChunksFit(Rest(remaining, size), size);
    }
  }

  /** gaps and chunks alternating, a gap first and last. */
  function Woven(gaps: seq<Bytes>, chunks: seq<Bytes>): Bytes
    requires |gaps| == |chunks| + 1
    decreases |chunks|
  {
    if chunks == [] then gaps[0] else gaps[0] + chunks[0] + Woven(gaps[1..], chunks[1..])
  }

  predicate AllSpace(gaps: seq<Bytes>) {
    forall i :: 0 <= i < |gaps| ==> SpaceRun(gaps[i])
  }

  /** Putting white space around a woven text widens its outer gaps. */
  lemma {:induction false} Widen(left: Bytes, gaps: seq<Bytes>, chunks: seq<Bytes>, right: Bytes)
    returns (wider: seq<Bytes>)
    requires |gaps| == |chunks| + 1 && AllSpace(gaps) && SpaceRun(left) && SpaceRun(right)
    ensures |wider| == |gaps| && AllSpace(wider) && Widens(wider, left, gaps, chunks, right)
    decreases |chunks|
  {
    SpaceRunConcat(left, gaps[0]);
    if chunks == [] {
      SpaceRunConcat(left + gaps[0], right);
      wider := [left + gaps[0] + right];
    } else {
      var rest := Widen([], gaps[1..], chunks[1..], right);
      wider := [left + gaps[0]] + rest;
      WidenMore(left, gaps, chunks, right, rest);
    }
  }

  predicate Widens(wider: seq<Bytes>, left: Bytes, gaps: seq<Bytes>, chunks: seq<Bytes>, right: Bytes)
    requires |wider| == |gaps| == |chunks| + 1
  {
    Woven(wider, chunks) == left + Woven(gaps, chunks) + right
  }

  lemma WidenMore(left: Bytes, gaps: seq<Bytes>, chunks: seq<Bytes>, right: Bytes, rest: seq<Bytes>)
    requires |gaps| == |chunks| + 1 && chunks != [] && |rest| == |gaps| - 1 && Widens(rest, [], gaps[1..], chunks[1..], right)
    ensures Widens([left + gaps[0]] + rest, left, gaps, chunks, right)
  {
    assert ([left + gaps[0]] + rest)[1..] == rest;
    WidenFirst(left, gaps[0], chunks[0], Woven(gaps[1..], chunks[1..]), right);
  }

  lemma WidenFirst(left: Bytes, gap: Bytes, chunk: Bytes, tail: Bytes, right: Bytes)
    ensures (left + gap) + chunk + ([] + tail + right) == left + (gap + chunk + tail) + right
  {
    assert [] + tail == tail;
  }

  /** The chunks are the text with nothing removed but white space between them and at
      the ends: every other character is kept, in order. */
  lemma {:induction false} ChunksKeepTheText(remaining: Bytes, size: nat) returns (gaps: seq<Bytes>)
    requires size >= 1
    ensures |gaps| == |Chunks(remaining, size)| + 1 && AllSpace(gaps)
    ensures Woven(gaps, Chunks(remaining, size)) == remaining
    decreases |remaining|
  {
    if |remaining| <= size {
      gaps := WeaveOne(remaining);
    } else {
      var inner := ChunksKeepTheText(Rest(remaining, size), size);
      var left, mid, right := HeadAndRestCut(remaining, size);
      gaps := WeaveOneMore(Head(remaining, size), Rest(remaining, size), left, mid, right, inner, Chunks(Rest(remaining, size), size));
    }
  }

  /** Around the next chunk and the rest only white space is dropped. */
  lemma HeadAndRestCut(remaining: Bytes, size: nat) returns (left: Bytes, mid: Bytes, right: Bytes)
    requires 1 <= size < |remaining|
    ensures SpaceRun(left) && SpaceRun(mid) && SpaceRun(right)
    ensures remaining == left + Head(remaining, size) + (mid + Rest(remaining, size) + right)
  {
    var c := Cut(remaining, size);
    left, mid, right := TrimBoth(remaining[..c + 1], remaining[c + 1..]);
    assert remaining == remaining[..c + 1] + remaining[c + 1..];
  }

  lemma TrimBoth(head: Bytes, back: Bytes) returns (left: Bytes, mid: Bytes, right: Bytes)
    ensures SpaceRun(left) && SpaceRun(mid) && SpaceRun(right)
    ensures head + back == left + TrimSpace(head) + (mid + TrimSpace(back) + right)
  {
    var a, b;
    left, a := TrimSpaceCuts(head);
    b, right := TrimSpaceCuts(back);
    mid := a + b;
    SpaceRunConcat(a, b);
    Regroup(left, TrimSpace(head), a, b, TrimSpace(back), right);
  }

  lemma WeaveOne(chunk: Bytes) returns (gaps: seq<Bytes>)
    ensures |gaps| == 2 && AllSpace(gaps) && Woven(gaps, [chunk]) == chunk
  {
    var none: Bytes := [];
    gaps := [none, none];
    WovenCons(none, chunk, [none], []);
    assert [none] + [none] == gaps && [chunk] + [] == [chunk];
  }

  lemma WeaveOneMore(head: Bytes, rest: Bytes, left: Bytes, mid: Bytes, right: Bytes, inner: seq<Bytes>, chunks: seq<Bytes>)
    returns (gaps: seq<Bytes>)
    requires SpaceRun(left) && SpaceRun(mid) && SpaceRun(right)
    requires |inner| == |chunks| + 1 && AllSpace(inner) && Woven(inner, chunks) == rest
    ensures |gaps| == |chunks| + 2 && AllSpace(gaps)
    ensures Woven(gaps, [head] + chunks) == left + head + (mid + rest + right)
  {
    var wider := Widen(mid, inner, chunks, right);
    gaps := [left] + wider;
    WovenCons(left, head, wider, chunks);
  }

  lemma WovenCons(gap: Bytes, chunk: Bytes, gaps: seq<Bytes>, chunks: seq<Bytes>)
    requires |gaps| == |chunks| + 1
    ensures Woven([gap] + gaps, [chunk] + chunks) == gap + chunk + Woven(gaps, chunks)
  {
    assert ([gap] + gaps)[1..] == gaps && ([chunk] + chunks)[1..] == chunks;
  }

  lemma Regroup(a: Bytes, b: Bytes, c: Bytes, d: Bytes, e: Bytes, f: Bytes)
    ensures (a + b + c) + (d + e + f) == a + b + ((c + d) + e + f)
  {
  }

  /** No white space at the ends. */
  predicate IsTrimmed(s: Bytes) {
    LeadingSpace(s) == 0 && TrailingSpace(s) == 0
  }

  lemma {:induction false} TrimLeftTrims(s: Bytes)
    ensures LeadingSpace(TrimLeft(s)) == 0
    decreases |s|
  {
    if LeadingSpace(s) != 0 { TrimLeftTrims(s[LeadingSpace(s)..]); }
  }

  lemma LeadingOfPrefix(s: Bytes, n: nat)
    requires n <= |s| && LeadingSpace(s) == 0
    ensures LeadingSpace(s[..n]) == 0
  {
  }

  lemma {:induction false} TrimRightTrims(s: Bytes)
    ensures TrailingSpace(TrimRight(s)) == 0
    ensures LeadingSpace(s) == 0 ==> LeadingSpace(TrimRight(s)) == 0
    decreases |s|
  {
    var k := TrailingSpace(s);
    if k != 0 {
      TrimRightTrims(s[..|s| - k]);
      if LeadingSpace(s) == 0 { LeadingOfPrefix(s, |s| - k); }
    }
  }

  lemma TrimSpaceTrims(s: Bytes)
    ensures IsTrimmed(TrimSpace(s))
  {
    TrimLeftTrims(s);
    TrimRightTrims(TrimLeft(s));
  }

  /** Every chunk is without white space at its ends, unless the text is a single chunk. */
  lemma {:induction false} ChunksAreTrimmed(remaining: Bytes, size: nat)
    requires size >= 1
    ensures |remaining| > size || IsTrimmed(remaining) ==> forall i :: 0 <= i < |Chunks(remaining, size)| ==> IsTrimmed(Chunks(remaining, size)[i])
    decreases |remaining|
  {
    if |remaining| > size {
      TrimSpaceTrims(remaining[..Cut(remaining, size) + 1]);
      TrimSpaceTrims(remaining[Cut(remaining, size) + 1..]);
      ChunksAreTrimmed(Rest(remaining, size), size);
    }
  }

  /** Each chunk but the last uses up more than three quarters of the chunk size, so there
      are few chunks. */
  lemma {:induction false} ChunksAreFew(remaining: Bytes, size: nat)
    requires size >= 1
    ensures (|Chunks(remaining, size)| - 1) * (LowerBound(size) + 1) <= |remaining|
    decreases |remaining|
  {
    if |remaining| > size {
      var rest := Rest(remaining, size);
      RestIsShort(remaining, size);
      ChunksAreFew(rest, size);
      var n := |Chunks(rest, size)| - 1;
      assert (n + 1) * (LowerBound(size) + 1) == n * (LowerBound(size) + 1) + (LowerBound(size) + 1);
    }
  }

  lemma RestIsShort(remaining: Bytes, size: nat)
    requires 1 <= size < |remaining|
    ensures |Rest(remaining, size)| + LowerBound(size) + 1 <= |remaining|
  {
    TrimShortens(remaining[Cut(remaining, size) + 1..]);
  }

  lemma ChunkCountBound(text: Bytes, size: nat)
    requires size >= 1
    ensures |Chunks(text, size)| - 1 <= |text| / (3 * size / 4 + 1)
  {
    ChunksAreFew(text, size);
    DivideBound(|Chunks(text, size)| - 1, LowerBound(size) + 1, |text|);
  }

  lemma DivideMonotone(n: int, d: nat, m: nat)
    requires d > 0
    ensures n > m / d ==> n * d >= (m / d + 1) * d
  {
  }

  lemma DivideBound(n: int, d: nat, m: nat)
    requires d > 0 && n * d <= m
    ensures n <= m / d
  {
    DivideMonotone(n, d, m);
  }
}
