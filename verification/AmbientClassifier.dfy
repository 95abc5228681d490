/**
 The thread text shown to the ambient classifier (conversations/ambient_classifier.go): which
 posts, and how much of them within a budget of characters.
 */
module AmbientClassifier {
  import opened Collections

  const MAX_THREAD_RUNES := 16000

  /** A post, and its text as it is formatted in a thread. */
  datatype Post = Post(id: string, text: string)

  // ---------------------------------------------------------------- which posts

  predicate HasId(posts: seq<Post>, id: string) {
    exists i :: 0 <= i < |posts| && posts[i].id == id
  }

  /** Where the first post with this ID is, or -1. */
  function IndexOf(posts: seq<Post>, id: string): (index: int)
    ensures -1 <= index < |posts|
    ensures index >= 0 ==> posts[index].id == id && forall k :: 0 <= k < index ==> posts[k].id != id
    ensures index >= 0 <==> HasId(posts, id)
  {
    if posts == [] then -1
    else if posts[0].id == id then 0
    else
      var rest := IndexOf(posts[1..], id);
      assert rest >= 0 ==> posts[rest + 1] == posts[1..][rest];
      assert forall k :: 0 < k < |posts| ==> posts[k] == posts[1..][k - 1];
      if rest < 0 then -1 else rest + 1
  }

  method FindId(posts: seq<Post>, id: string) returns (index: int)
    ensures index == IndexOf(posts, id)
  {
    for i := 0 to |posts|
      invariant forall k :: 0 <= k < i ==> posts[k].id != id
    {
      if posts[i].id == id { return i; }
    }
    return -1;
  }

  /** The newest n posts, or the trigger and the newest n - 1 if it is older than those. */
  method NewestPostsIncluding(thread: seq<Post>, trigger: Post, n: nat) returns (newest: seq<Post>)
    requires n > 0
    ensures |newest| == if |thread| <= n then |thread| else n
    ensures HasId(thread, trigger.id) || |thread| > n ==> HasId(newest, trigger.id)
    ensures |newest| > 0 ==> newest[1..] == thread[|thread| - |newest| + 1..]
    ensures |newest| > 0 ==> newest[0] == thread[|thread| - |newest|] || (newest[0] == trigger && !HasId(newest[1..], trigger.id))
  {
    if |thread| <= n { return thread; }
    newest := thread[|thread| - n..];
    var index := FindId(newest, trigger.id);
    if index >= 0 { return; }
    var kept := newest[1..];
    newest := [trigger] + kept;
    assert newest[0].id == trigger.id;
    assert newest[1..] == kept;
  }

  // ---------------------------------------------------------------- how much of them

  /** The last n characters. */
  function Newest(s: string, n: nat): (t: string)
    ensures |t| == if |s| <= n then |s| else n
    ensures |s| <= n ==> t == s
  {
    if |s| <= n then s else s[|s| - n..]
  }

  method TrimRunesKeepNewest(s: string, maxRunes: nat) returns (t: string)
    ensures t == Newest(s, maxRunes)
  {
    var i := |s|;
    var n := 0;
    while n < maxRunes && i > 0
      invariant 0 <= i <= |s| && 0 <= n <= maxRunes && i == |s| - n
    {
      i := i - 1;
      n := n + 1;
    }
    t := s[i..];
  }

  function Joined(blocks: seq<string>): string {
    if blocks == [] then "" else Joined(blocks[..|blocks| - 1]) + blocks[|blocks| - 1]
  }

  /** The blocks but the one at index t, joined. */
  function JoinedOthers(blocks: seq<string>, t: int): string {
    if blocks == [] then ""
    else
      var n := |blocks| - 1;
      if n == t then JoinedOthers(blocks[..n], t) else JoinedOthers(blocks[..n], t) + blocks[n]
  }

  /** The first i blocks after trimming, with this budget left for those before them. */
  function Trimmed(blocks: seq<string>, t: int, i: nat, budget: nat): (trimmed: seq<string>)
    requires i <= |blocks|
    ensures |trimmed| == i
  {
    if i == 0 then []
    else if i - 1 == t then Trimmed(blocks, t, i - 1, budget) + [Newest(blocks[t], MAX_THREAD_RUNES)]
    else
      var block := Newest(blocks[i - 1], budget);
      Trimmed(blocks, t, i - 1, budget - |block|) + [block]
  }

  /** What the trigger leaves for the other posts. */
  function BudgetFor(blocks: seq<string>, t: int): nat
    requires t < |blocks|
  {
    if t < 0 then MAX_THREAD_RUNES else MAX_THREAD_RUNES - |Newest(blocks[t], MAX_THREAD_RUNES)|
  }

  method FormatAmbientThread(posts: seq<Post>, triggerId: string) returns (formatted: string)
    ensures var blocks, t := Texts(posts), IndexOf(posts, triggerId);
            formatted == Joined(Trimmed(blocks, t, |blocks|, BudgetFor(blocks, t)))
  {
    var triggerIdx := FindId(posts, triggerId);
    var blocks := TrimBlocks(Texts(posts), triggerIdx);
    formatted := JoinBlocks(blocks);
  }

  /** Spends the budget on the trigger first. */
  method TrimBlocks(whole: seq<string>, t: int) returns (blocks: seq<string>)
    requires t < |whole|
    ensures blocks == Trimmed(whole, t, |whole|, BudgetFor(whole, t))
  {
    blocks := whole;
    var budget: nat := MAX_THREAD_RUNES;
    if t >= 0 {
      var block := TrimRunesKeepNewest(blocks[t], budget);
      blocks := blocks[t := block];
      budget := budget - |block|;
    }
    blocks := TrimOthers(whole, t, blocks, budget);
  }

  /** Spends the budget on the other blocks, newest first. */
  method TrimOthers(ghost whole: seq<string>, t: int, start: seq<string>, left: nat) returns (blocks: seq<string>)
    requires |start| == |whole|
    requires forall k :: 0 <= k < |start| ==> start[k] == if k == t then Newest(whole[k], MAX_THREAD_RUNES) else whole[k]
    ensures blocks == Trimmed(whole, t, |whole|, left)
  {
    blocks := start;
    var budget: nat := left;
    var i := |blocks|;
    assert blocks[i..] == [];
    while i > 0
      invariant 0 <= i <= |blocks| == |whole|
      invariant forall k :: 0 <= k < i ==> blocks[k] == start[k]
      invariant TrimmedFrom(whole, t, left, blocks, i, budget)
    {
      ghost var before, had := blocks, budget;
      i := i - 1;
      var block := blocks[i];
      if i != t {
        block := TrimRunesKeepNewest(blocks[i], budget);
        budget := budget - |block|;
      }
      TrimStep(whole, t, left, before, i + 1, had, block);
      blocks := blocks[i := block];
    }
    assert blocks[0..] == blocks;
  }

  /** The blocks from index i on are as they end up, and this budget is left for the others. */
  predicate TrimmedFrom(whole: seq<string>, t: int, left: nat, blocks: seq<string>, i: nat, budget: nat)
    requires i <= |blocks| == |whole|
  {
    Trimmed(whole, t, |whole|, left) == Trimmed(whole, t, i, budget) + blocks[i..]
  }

  lemma SetFirst(blocks: seq<string>, i: nat, block: string)
    requires i < |blocks|
    ensures blocks[i := block][i..] == [block] + blocks[i + 1..]
  {
  }

  lemma TrimStep(whole: seq<string>, t: int, left: nat, blocks: seq<string>, i: nat, budget: nat, block: string)
    requires 0 < i <= |blocks| == |whole| && TrimmedFrom(whole, t, left, blocks, i, budget)
    requires block == if i - 1 == t then Newest(whole[t], MAX_THREAD_RUNES) else Newest(whole[i - 1], budget)
    ensures TrimmedFrom(whole, t, left, blocks[i - 1 := block], i - 1, if i - 1 == t then budget else budget - |block|)
  {
    var front := Trimmed(whole, t, i - 1, if i - 1 == t then budget else budget - |block|);
    SetFirst(blocks, i - 1, block);
    Assoc(front, [block], blocks[i..]);
  }

  function Texts(posts: seq<Post>): (texts: seq<string>)
    ensures |texts| == |posts| && forall i :: 0 <= i < |posts| ==> texts[i] == posts[i].text
  {
    seq(|posts|, i requires 0 <= i < |posts| => posts[i].text)
  }

  method JoinBlocks(blocks: seq<string>) returns (joined: string)
    ensures joined == Joined(blocks)
  {
    joined := "";
    for i := 0 to |blocks|
      invariant joined == Joined(blocks[..i])
    {
      assert blocks[..i + 1][..i] == blocks[..i];
      joined := joined + blocks[i];
    }
    assert blocks[..|blocks|] == blocks;
  }

  // ---------------------------------------------------------------- what is kept

  lemma NewestOfBoth(a: string, b: string, n: nat)
    ensures Newest(a + b, n) == Newest(a, n - |Newest(b, n)|) + Newest(b, n)
  {
  }

  /** The other posts, taken together, are their newest characters within what the trigger
      leaves. */
  lemma {:induction false} OthersKeepTheirNewest(blocks: seq<string>, t: int, i: nat, budget: nat)
    requires i <= |blocks|
    ensures KeepsNewest(blocks, t, i, budget)
  {
    if i > 0 {
      if i - 1 == t {
        OthersKeepTheirNewest(blocks, t, i - 1, budget);
        SkipKeepsNewest(blocks, t, i, budget);
      } else {
        var left := budget - |Newest(blocks[i - 1], budget)|;
        OthersKeepTheirNewest(blocks, t, i - 1, left);
        BlockKeepsNewest(blocks, t, i, budget);
      }
    }
  }

  predicate KeepsNewest(blocks: seq<string>, t: int, i: nat, budget: nat)
    requires i <= |blocks|
  {
    JoinedOthers(Trimmed(blocks, t, i, budget), t) == Newest(JoinedOthers(blocks[..i], t), budget)
  }

  lemma SkipKeepsNewest(blocks: seq<string>, t: int, i: nat, budget: nat)
    requires 0 < i <= |blocks| && i - 1 == t && KeepsNewest(blocks, t, i - 1, budget)
    ensures KeepsNewest(blocks, t, i, budget)
  {
    assert blocks[..i] == blocks[..i - 1] + [blocks[t]];
    OthersSkip(blocks[..i - 1], blocks[t], t);
    OthersSkip(Trimmed(blocks, t, i - 1, budget), Newest(blocks[t], MAX_THREAD_RUNES), t);
  }

  lemma BlockKeepsNewest(blocks: seq<string>, t: int, i: nat, budget: nat)
    requires 0 < i <= |blocks| && i - 1 != t
    requires KeepsNewest(blocks, t, i - 1, budget - |Newest(blocks[i - 1], budget)|)
    ensures KeepsNewest(blocks, t, i, budget)
  {
    var left := budget - |Newest(blocks[i - 1], budget)|;
    assert blocks[..i] == blocks[..i - 1] + [blocks[i - 1]];
    OthersSnoc(blocks[..i - 1], blocks[i - 1], t);
    OneMoreOther(Trimmed(blocks, t, i - 1, left), JoinedOthers(blocks[..i - 1], t), blocks[i - 1], t, budget);
  }

  lemma OneMoreOther(front: seq<string>, others: string, block: string, t: int, budget: nat)
    requires |front| != t && JoinedOthers(front, t) == Newest(others, budget - |Newest(block, budget)|)
    ensures JoinedOthers(front + [Newest(block, budget)], t) == Newest(others + block, budget)
  {
    OthersSnoc(front, Newest(block, budget), t);
    NewestOfBoth(others, block, budget);
  }

  lemma OthersSnoc(blocks: seq<string>, block: string, t: int)
    requires |blocks| != t
    ensures JoinedOthers(blocks + [block], t) == JoinedOthers(blocks, t) + block
  {
    assert (blocks + [block])[..|blocks|] == blocks;
  }

  lemma OthersSkip(blocks: seq<string>, block: string, t: int)
    requires |blocks| == t
    ensures JoinedOthers(blocks + [block], t) == JoinedOthers(blocks, t)
  {
    assert (blocks + [block])[..|blocks|] == blocks;
  }

  /** From post k on the others are whole, and before k they are empty; k may be kept in part. */
  ghost predicate CutAt(blocks: seq<string>, trimmed: seq<string>, t: int, k: int)
    requires |trimmed| <= |blocks| && -1 <= k
  {
    && (forall m :: k < m < |trimmed| && m != t ==> trimmed[m] == blocks[m])
    && (forall m :: 0 <= m < k && m < |trimmed| && m != t ==> trimmed[m] == "")
    && (0 <= k < |trimmed| && k != t ==> exists n: nat :: trimmed[k] == Newest(blocks[k], n))
  }

  lemma {:induction false} NothingLeft(blocks: seq<string>, t: int, i: nat)
    requires i <= |blocks|
    ensures forall m :: 0 <= m < i && m != t ==> Trimmed(blocks, t, i, 0)[m] == ""
  {
    if i > 0 { NothingLeft(blocks, t, i - 1); }
  }

  /** At most one of the other posts is kept in part: newer ones are whole, and older ones are
      not kept at all. */
  lemma {:induction false} OneIsKeptInPart(blocks: seq<string>, t: int, i: nat, budget: nat) returns (k: int)
    requires i <= |blocks|
    ensures -1 <= k < i && CutAt(blocks, Trimmed(blocks, t, i, budget), t, k)
  {
    k := -1;
    if i > 0 {
      var left := if i - 1 == t then budget else budget - |Newest(blocks[i - 1], budget)|;
      if i - 1 == t || |blocks[i - 1]| <= budget {
        k := OneIsKeptInPart(blocks, t, i - 1, left);
        OneMoreWhole(blocks, Trimmed(blocks, t, i - 1, left), t, k, Trimmed(blocks, t, i, budget)[i - 1]);
      } else {
        NothingLeft(blocks, t, i - 1);
        k := i - 1;
        assert Trimmed(blocks, t, i, budget)[k] == Newest(blocks[k], budget);
      }
    }
  }

  lemma OneMoreWhole(blocks: seq<string>, trimmed: seq<string>, t: int, k: int, block: string)
    requires |trimmed| < |blocks| && -1 <= k < |trimmed| && CutAt(blocks, trimmed, t, k)
    requires |trimmed| != t ==> block == blocks[|trimmed|]
    ensures CutAt(blocks, trimmed + [block], t, k)
  {
  }

  /** The trigger keeps its newest characters, even when it is not the newest post. */
  lemma {:induction false} TriggerIsKept(blocks: seq<string>, t: nat, i: nat, budget: nat)
    requires t < i <= |blocks|
    ensures Trimmed(blocks, t, i, budget)[t] == Newest(blocks[t], MAX_THREAD_RUNES)
  {
    if i - 1 > t { TriggerIsKept(blocks, t, i - 1, budget - |Newest(blocks[i - 1], budget)|); }
  }

  lemma {:induction false} JoinedLength(blocks: seq<string>, t: int)
    ensures |Joined(blocks)| == |JoinedOthers(blocks, t)| + if 0 <= t < |blocks| then |blocks[t]| else 0
  {
    if blocks != [] {
      var n := |blocks| - 1;
      JoinedLength(blocks[..n], t);
    }
  }

  /** The text stays within its budget, and nothing is dropped when all of it fits. */
  lemma ThreadFits(blocks: seq<string>, t: int)
    requires -1 <= t < |blocks|
    ensures var formatted := Joined(Trimmed(blocks, t, |blocks|, BudgetFor(blocks, t)));
            |formatted| == if |Joined(blocks)| <= MAX_THREAD_RUNES then |Joined(blocks)| else MAX_THREAD_RUNES
  {
    var trimmed := Trimmed(blocks, t, |blocks|, BudgetFor(blocks, t));
    OthersKeepTheirNewest(blocks, t, |blocks|, BudgetFor(blocks, t));
    assert blocks[..|blocks|] == blocks;
    JoinedLength(trimmed, t);
    JoinedLength(blocks, t);
    if t >= 0 { TriggerIsKept(blocks, t, |blocks|, BudgetFor(blocks, t)); }
  }

  lemma {:induction false} NoTriggerInside(blocks: seq<string>, t: int)
    requires t < 0 || t >= |blocks|
    ensures JoinedOthers(blocks, t) == Joined(blocks)
  {
    if blocks != [] { NoTriggerInside(blocks[..|blocks| - 1], t); }
  }

  /** When the trigger is the newest post, or not in the thread, the text is simply the newest
      part of the whole thread. */
  lemma NewestTriggerKeepsTheTail(blocks: seq<string>, t: int)
    requires t == -1 || t == |blocks| - 1
    ensures Joined(Trimmed(blocks, t, |blocks|, BudgetFor(blocks, t))) == Newest(Joined(blocks), MAX_THREAD_RUNES)
  {
    var budget := BudgetFor(blocks, t);
    var n := |blocks|;
    assert blocks[..n] == blocks;
    if t < 0 {
      OthersKeepTheirNewest(blocks, t, n, budget);
      NoTriggerInside(blocks, t);
      NoTriggerInside(Trimmed(blocks, t, n, budget), t);
    } else {
      OthersKeepTheirNewest(blocks, t, t, budget);
      NoTriggerInside(blocks[..t], t);
      NoTriggerInside(Trimmed(blocks, t, t, budget), t);
      var trimmed := Trimmed(blocks, t, n, budget);
      assert trimmed[..t] == Trimmed(blocks, t, t, budget);
      NewestOfBoth(Joined(blocks[..t]), blocks[t], MAX_THREAD_RUNES);
    }
  }
}
