/**
 Splitting texts into embedding requests (bifrost/embeddings.go): consecutive batches
 within a request's limits, and no fewer could do.
 */
module EmbeddingBatches {
  import ByteStrings

  const MAX_REQUEST_INPUTS := 2048
  const MAX_REQUEST_BYTES := 300_000

  /** A text as UTF-8 bytes. */
  type Text = ByteStrings.Bytes

  function Bytes(texts: seq<Text>): nat {
    if texts == [] then 0 else Bytes(texts[..|texts| - 1]) + |texts[|texts| - 1]|
  }

  /** A request the provider accepts; a text over the size limit goes alone. */
  predicate Fits(batch: seq<Text>) {
    0 < |batch| <= MAX_REQUEST_INPUTS && (Bytes(batch) <= MAX_REQUEST_BYTES || |batch| == 1)
  }

  function Concat(batches: seq<seq<Text>>): seq<Text> {
    if batches == [] then [] else Concat(batches[..|batches| - 1]) + batches[|batches| - 1]
  }

  /** A partition of texts into consecutive requests. */
  predicate Partition(batches: seq<seq<Text>>, texts: seq<Text>) {
    Concat(batches) == texts && forall i :: 0 <= i < |batches| ==> Fits(batches[i])
  }

  /** Batch i could not also have taken the first text of the next one. */
  predicate Full(batches: seq<seq<Text>>, i: nat)
    requires i + 1 < |batches|
  {
    batches[i + 1] != [] && !Fits(batches[i] + [batches[i + 1][0]])
  }

  predicate Greedy(batches: seq<seq<Text>>) {
    forall i: nat :: i + 1 < |batches| ==> Full(batches, i)
  }

  /** Batches up to start are done, texts[start..i] is the batch being filled. */
  predicate Filling(batches: seq<seq<Text>>, texts: seq<Text>, start: nat, i: nat) {
    && start < i <= |texts|
    && Fits(texts[start..i])
    && Partition(batches, texts[..start])
    && Greedy(batches)
    && (batches != [] ==> !Fits(batches[|batches| - 1] + [texts[start]]))
  }

  /** Optimal: any other way of cutting texts into acceptable requests needs as many. */
  method SplitEmbeddingBatches(texts: seq<Text>) returns (batches: seq<seq<Text>>)
    ensures Partition(batches, texts)
    ensures forall b :: b in batches ==> 0 < |b| <= 2048 && (Bytes(b) <= 300_000 || |b| == 1)
    ensures forall other :: Partition(other, texts) ==> |batches| <= |other|
  {
    batches := [];
    var start, bytes := 0, 0;
    for i := 0 to |texts|
      invariant i == 0 ==> start == 0 && batches == [] && bytes == 0
      invariant i > 0 ==> Filling(batches, texts, start, i) && bytes == Bytes(texts[start..i])
    {
      var text := texts[i];
      if i > start && (i - start >= MAX_REQUEST_INPUTS || bytes + |text| > MAX_REQUEST_BYTES) {
        CloseBatch(batches, texts, start, i);
        batches := batches + [texts[start..i]];
        start := i;
        bytes := 0;
      } else {
        FillBatch(batches, texts, start, i);
      }
      bytes := bytes + |text|;
    }
    if start < |texts| {
      assert texts[start..|texts|] == texts[start..] && texts[start..][0] == texts[start];
      AppendBatch(batches, texts[..start], texts[start..]);
      AppendFull(batches, texts[start..]);
      assert texts[..start] + texts[start..] == texts;
      batches := batches + [texts[start..]];
    }
    forall other | Partition(other, texts) ensures |batches| <= |other| {
      GreedyIsOptimal(batches, other, texts);
    }
  }

  lemma CloseBatch(batches: seq<seq<Text>>, texts: seq<Text>, start: nat, i: nat)
    requires Filling(batches, texts, start, i) && i < |texts|
    requires i - start >= MAX_REQUEST_INPUTS || Bytes(texts[start..i]) + |texts[i]| > MAX_REQUEST_BYTES
    ensures Filling(batches + [texts[start..i]], texts, i, i + 1) && Bytes(texts[i..i + 1]) == |texts[i]|
  {
    var batch := texts[start..i];
    AppendBatch(batches, texts[..start], batch);
    assert texts[..start] + batch == texts[..i];
    OneText(texts, i);
    AppendFull(batches, batch);
  }

  lemma OneText(texts: seq<Text>, i: nat)
    requires i < |texts|
    ensures texts[i..i + 1] == [texts[i]] && Bytes([texts[i]]) == |texts[i]|
  {
    var one := texts[i..i + 1];
    assert |one| == 1 && one[0] == texts[i];
    assert [texts[i]][..0] == [];
  }

  lemma AppendFull(batches: seq<seq<Text>>, batch: seq<Text>)
    requires Greedy(batches) && batch != []
    requires batches != [] ==> !Fits(batches[|batches| - 1] + [batch[0]])
    ensures Greedy(batches + [batch])
  {
    var longer := batches + [batch];
    forall k: nat | k + 1 < |longer| ensures Full(longer, k) {
      if k + 1 < |batches| { assert Full(batches, k); }
    }
  }

  lemma FillBatch(batches: seq<seq<Text>>, texts: seq<Text>, start: nat, i: nat)
    requires i < |texts|
    requires if i == 0 then start == 0 && batches == [] else
               Filling(batches, texts, start, i) && i - start < MAX_REQUEST_INPUTS &&
               Bytes(texts[start..i]) + |texts[i]| <= MAX_REQUEST_BYTES
    ensures Filling(batches, texts, start, i + 1) && Bytes(texts[start..i + 1]) == Bytes(texts[start..i]) + |texts[i]|
  {
    assert texts[start..i + 1] == texts[start..i] + [texts[i]];
    BytesSnoc(texts[start..i], texts[i]);
  }

  lemma BytesSnoc(texts: seq<Text>, text: Text)
    ensures Bytes(texts + [text]) == Bytes(texts) + |text|
  {
    assert (texts + [text])[..|texts|] == texts;
  }

  lemma AppendBatch(batches: seq<seq<Text>>, texts: seq<Text>, batch: seq<Text>)
    requires Partition(batches, texts) && Fits(batch)
    ensures Partition(batches + [batch], texts + batch)
  {
    assert (batches + [batch])[..|batches|] == batches;
  }

  // ---------------------------------------------------------------- optimality

  lemma FrontOfPart(texts: seq<Text>, lo: nat)
    requires lo < |texts|
    ensures var n := |texts| - 1; texts[lo..|texts|][..n - lo] == texts[..n][lo..n]
  {
    var n := |texts| - 1;
    assert texts[lo..|texts|][..n - lo] == texts[lo..n];
    assert texts[..n][lo..n] == texts[lo..n];
  }

  lemma {:induction false} BytesOfPart(texts: seq<Text>, lo: nat, hi: nat)
    requires lo <= hi <= |texts|
    ensures Bytes(texts[lo..hi]) <= Bytes(texts)
  {
    if texts != [] {
      var n := |texts| - 1;
      if hi == |texts| && lo < hi {
        FrontOfPart(texts, lo);
        BytesOfPart(texts[..n], lo, n);
      } else if hi <= n {
        assert texts[..n][lo..hi] == texts[lo..hi];
        BytesOfPart(texts[..n], lo, hi);
      } else {
        assert |texts[lo..hi]| == 0;
      }
    }
  }

  /** Part of an acceptable request is acceptable. */
  lemma FitsPart(batch: seq<Text>, lo: nat, hi: nat)
    requires Fits(batch) && lo < hi <= |batch|
    ensures Fits(batch[lo..hi])
  {
    BytesOfPart(batch, lo, hi);
  }

  lemma {:induction false} ConcatPrefix(batches: seq<seq<Text>>, k: nat)
    requires k <= |batches|
    ensures Concat(batches[..k]) <= Concat(batches)
  {
    if k < |batches| {
      ConcatPrefix(batches[..|batches| - 1], k);
      assert batches[..|batches| - 1][..k] == batches[..k];
    } else {
      assert batches[..k] == batches;
    }
  }

  lemma ConcatStep(batches: seq<seq<Text>>, k: nat)
    requires k < |batches|
    ensures Concat(batches[..k + 1]) == Concat(batches[..k]) + batches[k]
  {
    assert batches[..k + 1][..k] == batches[..k];
  }

  /** After k requests the greedy split has covered at least as much as any other. */
  lemma {:induction false} GreedyStaysAhead(batches: seq<seq<Text>>, other: seq<seq<Text>>, texts: seq<Text>, k: nat)
    requires Partition(batches, texts) && Greedy(batches) && Partition(other, texts)
    requires k <= |batches| && k <= |other|
    ensures |Concat(other[..k])| <= |Concat(batches[..k])|
  {
    if k > 0 {
      GreedyStaysAhead(batches, other, texts, k - 1);
      GreedyCouldNotBeOvertaken(batches, other, texts, k - 1);
    }
  }

  /** A batch of the other split cannot start no later and end after greedy batch k. */
  lemma GreedyCouldNotBeOvertaken(batches: seq<seq<Text>>, other: seq<seq<Text>>, texts: seq<Text>, k: nat)
    requires Partition(batches, texts) && Greedy(batches) && Partition(other, texts)
    requires k < |batches| && k < |other|
    requires |Concat(other[..k])| <= |Concat(batches[..k])|
    ensures |Concat(other[..k + 1])| <= |Concat(batches[..k + 1])|
  {
    var from, to := |Concat(batches[..k])|, |Concat(batches[..k + 1])|;
    var from', to' := |Concat(other[..k])|, |Concat(other[..k + 1])|;
    BatchIsSlice(batches, texts, k);
    BatchIsSlice(other, texts, k);
    if to < to' {
      var next := NextBatch(batches, texts, k);
      assert Full(batches, k);
      assert Fits(other[k]);
      SliceOfSlice(texts, from', to', from, to + 1);
      assert texts[from..to] + [texts[to]] == texts[from..to + 1];
      FitsPart(other[k], from - from', to + 1 - from');
    }
  }

  lemma SliceOfSlice(texts: seq<Text>, lo: nat, hi: nat, a: nat, b: nat)
    requires lo <= a <= b <= hi <= |texts|
    ensures texts[lo..hi][a - lo..b - lo] == texts[a..b]
  {
    var part := texts[lo..hi];
    forall j | 0 <= j < b - a ensures part[a - lo..b - lo][j] == texts[a..b][j] {
    }
  }

  lemma BatchIsSlice(batches: seq<seq<Text>>, texts: seq<Text>, k: nat)
    requires Partition(batches, texts) && k < |batches|
    ensures var from, to := |Concat(batches[..k])|, |Concat(batches[..k + 1])|;
            from < to <= |texts| && batches[k] == texts[from..to]
  {
    ConcatStep(batches, k);
    ConcatPrefix(batches, k + 1);
    var from, to := |Concat(batches[..k])|, |Concat(batches[..k + 1])|;
    assert Fits(batches[k]);
    assert Concat(batches[..k + 1]) == texts[..to];
    assert batches[k] == texts[..to][from..];
  }

  /** While texts are left over after batch k there is a next batch, starting with them. */
  lemma NextBatch(batches: seq<seq<Text>>, texts: seq<Text>, k: nat) returns (next: seq<Text>)
    requires Partition(batches, texts) && k < |batches| && |Concat(batches[..k + 1])| < |texts|
    ensures k + 1 < |batches| && next == batches[k + 1] && next != []
    ensures next[0] == texts[|Concat(batches[..k + 1])|]
  {
    assert batches[..|batches|] == batches;
    next := batches[k + 1];
    ConcatStep(batches, k + 1);
    ConcatPrefix(batches, k + 2);
    var c := Concat(batches[..k + 1]);
    assert Fits(next);
    assert Concat(batches[..k + 2])[|c|] == next[0];
  }

  lemma {:induction false} EveryBatchCovers(batches: seq<seq<Text>>, k: nat)
    requires k < |batches| && forall i :: 0 <= i < |batches| ==> Fits(batches[i])
    ensures |Concat(batches[..k])| < |Concat(batches)|
  {
    ConcatStep(batches, k);
    ConcatPrefix(batches, k + 1);
    assert Fits(batches[k]);
  }

  lemma GreedyIsOptimal(batches: seq<seq<Text>>, other: seq<seq<Text>>, texts: seq<Text>)
    requires Partition(batches, texts) && Greedy(batches) && Partition(other, texts)
    ensures |batches| <= |other|
  {
    if |other| < |batches| {
      assert other[..|other|] == other;
      EveryBatchCovers(batches, |other|);
      GreedyStaysAhead(batches, other, texts, |other|);
    }
  }
}
