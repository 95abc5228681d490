/**
 The post before a given one in a thread (conversations/agent_mention_reminder.go). The posts
 are a Go map, which is read in any order.
 */
module ThreadPosts {
  import opened Wrappers
  import opened GoStrings

  datatype Post = Post(id: string, createAt: int)

  datatype Thread = Thread(order: seq<string>, posts: map<string, Option<Post>>)

  /** Where each ID comes in the thread's order, the last place counting. */
  function OrderIndex(order: seq<string>): (index: map<string, nat>)
    ensures forall id :: id in index <==> id in order
    ensures forall id :: id in index ==> index[id] < |order| && order[index[id]] == id
  {
    if order == [] then map[]
    else
      var n := |order| - 1;
      assert order == order[..n] + [order[n]];
      OrderIndex(order[..n])[order[n] := n]
  }

  predicate IsLater(index: map<string, nat>, a: Post, b: Post) {
    if a.createAt != b.createAt then a.createAt > b.createAt
    else if a.id in index && b.id in index && index[a.id] != index[b.id] then index[a.id] > index[b.id]
    else LexLess(b.id, a.id)
  }

  /** Whether a post may be the one before. */
  predicate Candidate(index: map<string, nat>, c: Post, post: Post) {
    && c.id != post.id
    && c.createAt <= post.createAt
    && (c.createAt == post.createAt ==>
          if post.id in index then c.id in index && index[c.id] < index[post.id] else LexLess(c.id, post.id))
  }

  predicate KeyedById(posts: map<string, Option<Post>>) {
    forall id :: id in posts && posts[id].Some? ==> posts[id].value.id == id
  }

  function Candidates(thread: Thread, post: Post): set<Post> {
    var index := OrderIndex(thread.order);
    set id | id in thread.posts && thread.posts[id].Some? && Candidate(index, thread.posts[id].value, post) :: thread.posts[id].value
  }

  /** Place i is the last one of this ID in the thread's order. */
  predicate LastPlace(order: seq<string>, id: string, i: nat) {
    i < |order| && order[i] == id && forall j :: i < j < |order| ==> order[j] != id
  }

  lemma {:induction false} IndexIsLastPlace(order: seq<string>, id: string, i: nat)
    ensures IndexedAt(order, id, i)
  {
    if order != [] {
      IndexIsLastPlace(order[..|order| - 1], id, i);
      IndexedAtLast(order, id, i);
    }
  }

  predicate IndexedAt(order: seq<string>, id: string, i: nat) {
    LastPlace(order, id, i) <==> id in OrderIndex(order) && OrderIndex(order)[id] == i
  }

  lemma IndexedAtLast(order: seq<string>, id: string, i: nat)
    requires order != [] && IndexedAt(order[..|order| - 1], id, i)
    ensures IndexedAt(order, id, i)
  {
    var n := |order| - 1;
    assert forall j :: 0 <= j < n ==> order[..n][j] == order[j];
    assert i < n ==> (LastPlace(order, id, i) <==> order[n] != id && LastPlace(order[..n], id, i));
  }

  /** A stored post may be the previous one if it is older; of posts of the same time it is the
      thread's order that counts if the given post is in it, and otherwise the ID. */
  lemma CandidatesAreTheEarlier(thread: Thread, post: Post, c: Post)
    requires KeyedById(thread.posts)
    ensures c in Candidates(thread, post) <==>
            && c.id in thread.posts && thread.posts[c.id] == Some(c) && c.id != post.id
            && (|| c.createAt < post.createAt
                || (c.createAt == post.createAt && post.id !in thread.order && LexLess(c.id, post.id))
                || (c.createAt == post.createAt &&
                      exists i: nat, j: nat :: LastPlace(thread.order, c.id, i) && LastPlace(thread.order, post.id, j) && i < j))
  {
    var index := OrderIndex(thread.order);
    forall id, i: nat ensures LastPlace(thread.order, id, i) <==> id in index && index[id] == i {
      IndexIsLastPlace(thread.order, id, i);
    }
    if c.id in index && post.id in index {
      assert LastPlace(thread.order, c.id, index[c.id]) && LastPlace(thread.order, post.id, index[post.id]);
    }
  }

  /** A post is later than another by its time; of the same time, by the thread's order if both are
      in it, and otherwise by ID. */
  lemma LaterMeans(order: seq<string>, a: Post, b: Post)
    requires a.id != b.id
    ensures IsLater(OrderIndex(order), a, b) <==>
            || a.createAt > b.createAt
            || (a.createAt == b.createAt && (a.id !in order || b.id !in order) && LexLess(b.id, a.id))
            || (a.createAt == b.createAt && exists i: nat, j: nat :: LastPlace(order, a.id, i) && LastPlace(order, b.id, j) && i > j)
  {
    var index := OrderIndex(order);
    forall id, i: nat ensures LastPlace(order, id, i) <==> id in index && index[id] == i {
      IndexIsLastPlace(order, id, i);
    }
    if a.id in index && b.id in index {
      assert LastPlace(order, a.id, index[a.id]) && LastPlace(order, b.id, index[b.id]);
    }
  }

  /** Later than every other candidate. */
  predicate IsLatest(index: map<string, nat>, candidates: set<Post>, p: Post) {
    p in candidates && forall c :: c in candidates && c != p ==> IsLater(index, p, c)
  }

  // ---------------------------------------------------------------- readings

  /** A reading of the candidates: each of them once, in some order. */
  predicate Reading(read: seq<Post>, candidates: set<Post>) {
    && (forall p :: p in read ==> p in candidates)
    && (forall p :: p in candidates ==> p in read)
    && (forall i, j :: 0 <= i < j < |read| ==> read[i] != read[j])
  }

  /** The candidate kept after these were read in this order. */
  function Picked(index: map<string, nat>, read: seq<Post>): Post
    requires read != []
  {
    var n := |read| - 1;
    if n == 0 then read[0]
    else
      var before := Picked(index, read[..n]);
      if IsLater(index, read[n], before) then read[n] else before
  }

  lemma PickedSnoc(index: map<string, nat>, read: seq<Post>, p: Post)
    requires read != []
    ensures Picked(index, read + [p]) == if IsLater(index, p, Picked(index, read)) then p else Picked(index, read)
  {
    assert (read + [p])[..|read|] == read;
  }

  lemma ReadingSnoc(read: seq<Post>, candidates: set<Post>, p: Post)
    requires Reading(read, candidates) && p !in candidates
    ensures Reading(read + [p], candidates + {p})
  {
  }

  method IndexOrder(order: seq<string>) returns (index: map<string, nat>)
    ensures index == OrderIndex(order)
  {
    index := map[];
    for i := 0 to |order|
      invariant index == OrderIndex(order[..i])
    {
      assert order[..i + 1][..i] == order[..i];
      index := index[order[i] := i];
    }
    assert order[..|order|] == order;
  }

  /** Some candidate, as some reading picks it, if there is any; and the latest candidate if
      one is later than all others. */
  method FindPreviousThreadPost(thread: Thread, post: Post) returns (prev: Option<Post>)
    requires KeyedById(thread.posts)
    ensures prev.None? <==> Candidates(thread, post) == {}
    ensures prev.Some? ==>
              var p := prev.value;
              && p.id in thread.posts && thread.posts[p.id] == Some(p) && p.id != post.id && p.createAt <= post.createAt
              && (p.createAt == post.createAt && post.id !in thread.order ==> LexLess(p.id, post.id))
    ensures prev.Some? ==>
              exists read :: read != [] && Reading(read, Candidates(thread, post)) && prev.value == Picked(OrderIndex(thread.order), read)
    ensures forall p :: IsLatest(OrderIndex(thread.order), Candidates(thread, post), p) ==> prev == Some(p)
  {
    var index := IndexOrder(thread.order);
    ghost var read;
    prev, read := KeepLatest(thread, post, index);
    if read != [] { PickedIsRead(index, read); }
    forall p | IsLatest(index, Candidates(thread, post), p) ensures prev == Some(p) {
      LatestIsPicked(index, Candidates(thread, post), read, p);
    }
  }

  /** The running maximum over the map. */
  method KeepLatest(thread: Thread, post: Post, index: map<string, nat>) returns (prev: Option<Post>, ghost read: seq<Post>)
    requires KeyedById(thread.posts) && index == OrderIndex(thread.order)
    ensures Reading(read, Candidates(thread, post))
    ensures Keeps(index, read, prev)
  {
    prev, read := None, [];
    var left := thread.posts.Keys;
    while left != {}
      invariant left <= thread.posts.Keys
      invariant Reading(read, SeenCandidates(thread, post, left)) && Keeps(index, read, prev)
      decreases left
    {
      var id :| id in left;
      SeenMore(thread, post, left, id);
      var candidate := thread.posts[id];
      if candidate.Some? && Candidate(index, candidate.value, post) {
        ReadingSnoc(read, SeenCandidates(thread, post, left), candidate.value);
        KeepsOneMore(index, read, prev, candidate.value);
        read := read + [candidate.value];
        if prev.None? || IsLater(index, candidate.value, prev.value) { prev := candidate; }
      }
      left := left - {id};
    }
    assert SeenCandidates(thread, post, {}) == Candidates(thread, post);
  }

  predicate Keeps(index: map<string, nat>, read: seq<Post>, prev: Option<Post>) {
    prev == if read == [] then None else Some(Picked(index, read))
  }

  lemma KeepsOneMore(index: map<string, nat>, read: seq<Post>, prev: Option<Post>, c: Post)
    requires Keeps(index, read, prev)
    ensures Keeps(index, read + [c], if prev.None? || IsLater(index, c, prev.value) then Some(c) else prev)
  {
    if read != [] { PickedSnoc(index, read, c); }
  }

  function SeenCandidates(thread: Thread, post: Post, left: set<string>): set<Post> {
    var index := OrderIndex(thread.order);
    set id | id in thread.posts && id !in left && thread.posts[id].Some? && Candidate(index, thread.posts[id].value, post)
      :: thread.posts[id].value
  }

  lemma SeenMore(thread: Thread, post: Post, left: set<string>, id: string)
    requires KeyedById(thread.posts) && left <= thread.posts.Keys && id in left
    ensures var c := thread.posts[id];
            SeenCandidates(thread, post, left - {id}) ==
            SeenCandidates(thread, post, left) +
            if c.Some? && Candidate(OrderIndex(thread.order), c.value, post) then {c.value} else {}
    ensures thread.posts[id].Some? ==> thread.posts[id].value !in SeenCandidates(thread, post, left)
  {
  }

  // ---------------------------------------------------------------- when the reading does not matter

  lemma {:induction false} PickedIsRead(index: map<string, nat>, read: seq<Post>)
    requires read != []
    ensures Picked(index, read) in read
  {
    if |read| > 1 {
      PickedIsRead(index, read[..|read| - 1]);
      assert read == read[..|read| - 1] + [read[|read| - 1]];
    }
  }

  lemma LaterIsTotal(index: map<string, nat>, a: Post, b: Post)
    requires a.id != b.id
    ensures IsLater(index, a, b) || IsLater(index, b, a)
  {
    LexTotal(a.id, b.id);
  }

  lemma LaterIsAsymmetric(index: map<string, nat>, a: Post, b: Post)
    requires IsLater(index, a, b)
    ensures !IsLater(index, b, a)
  {
    if LexLess(a.id, b.id) && LexLess(b.id, a.id) {
      LexTransitive(a.id, b.id, a.id);
      LexIrreflexive(a.id);
    }
  }

  /** A post that was read and is later than all others that were read is picked. */
  lemma {:induction false} LaterIsPicked(index: map<string, nat>, read: seq<Post>, p: Post)
    requires p in read && forall c :: c in read && c != p ==> IsLater(index, p, c)
    ensures Picked(index, read) == p
  {
    var n := |read| - 1;
    var front, last := read[..n], read[n];
    assert read == front + [last];
    if n > 0 {
      if p in front {
        LaterIsPicked(index, front, p);
        if last != p { LaterIsAsymmetric(index, p, last); }
      } else {
        PickedIsRead(index, front);
        assert Picked(index, front) in read;
      }
    }
  }

  /** The latest candidate is picked in every reading. */
  lemma LatestIsPicked(index: map<string, nat>, candidates: set<Post>, read: seq<Post>, p: Post)
    requires IsLatest(index, candidates, p) && Reading(read, candidates)
    ensures read != [] && Picked(index, read) == p
  {
    assert p in read;
    LaterIsPicked(index, read, p);
  }

  lemma {:induction false} ReadingExists(candidates: set<Post>) returns (read: seq<Post>)
    ensures Reading(read, candidates)
    decreases candidates
  {
    if candidates == {} {
      read := [];
    } else {
      var p :| p in candidates;
      read := ReadingExists(candidates - {p});
      ReadingSnoc(read, candidates - {p}, p);
      read := read + [p];
      assert candidates - {p} + {p} == candidates;
    }
  }

  predicate DistinctPostIds(candidates: set<Post>) {
    forall a, b :: a in candidates && b in candidates && a.id == b.id ==> a == b
  }

  /** If some other candidate c is not earlier than p, a reading that ends in p and c does not
      pick p. */
  lemma ReadingAgainst(index: map<string, nat>, candidates: set<Post>, p: Post, c: Post) returns (read: seq<Post>)
    requires DistinctPostIds(candidates) && p in candidates && c in candidates && p != c && !IsLater(index, p, c)
    ensures Reading(read, candidates) && read != [] && Picked(index, read) != p
  {
    var rest := candidates - {p} - {c};
    var others := ReadingExists(rest);
    ReadingSnoc(others, rest, p);
    ReadingSnoc(others + [p], rest + {p}, c);
    assert rest + {p} + {c} == candidates;
    read := others + [p] + [c];
    PickedSnoc(index, others + [p], c);
    LaterIsTotal(index, p, c);
  }

  /** Every reading picks p. */
  ghost predicate AllPick(index: map<string, nat>, candidates: set<Post>, p: Post) {
    forall read :: Reading(read, candidates) && read != [] ==> Picked(index, read) == p
  }

  /** The result does not depend on how the map is read exactly when some candidate is later
      than all others, and then it is that one. */
  lemma ReadingDoesNotMatterExactly(index: map<string, nat>, candidates: set<Post>, p: Post)
    requires DistinctPostIds(candidates) && candidates != {}
    ensures AllPick(index, candidates, p) <==> IsLatest(index, candidates, p)
  {
    if IsLatest(index, candidates, p) {
      forall read | Reading(read, candidates) && read != [] ensures Picked(index, read) == p {
        LatestIsPicked(index, candidates, read, p);
      }
    }
    if AllPick(index, candidates, p) {
      var some := ReadingExists(candidates);
      assert some != [] by { var q :| q in candidates; assert q in some; }
      PickedIsRead(index, some);
      forall c | c in candidates && c != p ensures IsLater(index, p, c) {
        if !IsLater(index, p, c) { var read := ReadingAgainst(index, candidates, p, c); }
      }
    }
  }

  lemma CandidatesAreDistinct(thread: Thread, post: Post)
    requires KeyedById(thread.posts)
    ensures DistinctPostIds(Candidates(thread, post))
  {
  }

  /** At most one candidate is the latest. */
  lemma LatestIsUnique(index: map<string, nat>, candidates: set<Post>, p: Post, q: Post)
    requires IsLatest(index, candidates, p) && IsLatest(index, candidates, q)
    ensures p == q
  {
    if p != q { LaterIsAsymmetric(index, p, q); }
  }

  // ---------------------------------------------------------------- ties

  /** The posts of this time. */
  function At(candidates: set<Post>, time: int): set<Post> {
    set p | p in candidates && p.createAt == time
  }

  /** They are all in the thread's order, or none of them is. */
  predicate TiesAreOrdered(index: map<string, nat>, tied: set<Post>) {
    forall a, b :: a in tied && b in tied ==> (a.id in index <==> b.id in index)
  }

  predicate Injective(index: map<string, nat>) {
    forall x, y :: x in index && y in index && index[x] == index[y] ==> x == y
  }

  lemma OrderIndexIsInjective(order: seq<string>)
    ensures Injective(OrderIndex(order))
  {
  }

  lemma LaterIsTransitive(index: map<string, nat>, a: Post, b: Post, c: Post)
    requires IsLater(index, a, b) && IsLater(index, b, c) && Injective(index)
    requires a.createAt == b.createAt == c.createAt && TiesAreOrdered(index, {a, b, c})
    ensures IsLater(index, a, c)
  {
    assert a in {a, b, c} && b in {a, b, c} && c in {a, b, c};
    if a.id !in index {
      LexTransitive(c.id, b.id, a.id);
    } else {
      LexIrreflexive(a.id);
      LexIrreflexive(b.id);
    }
  }

  /** Tied posts that are ordered have a latest one. */
  lemma {:induction false} LatestOfTied(index: map<string, nat>, tied: set<Post>, time: int) returns (p: Post)
    requires tied != {} && DistinctPostIds(tied) && TiesAreOrdered(index, tied) && Injective(index)
    requires forall a :: a in tied ==> a.createAt == time
    ensures IsLatest(index, tied, p)
    decreases tied
  {
    var q :| q in tied;
    p := q;
    if tied != {q} {
      assert tied - {q} != {};
      var r := LatestOfTied(index, tied - {q}, time);
      LaterIsTotal(index, q, r);
      if IsLater(index, q, r) {
        forall c | c in tied && c != q ensures IsLater(index, q, c) {
          if c != r { LaterIsTransitive(index, q, r, c); }
        }
      } else {
        p := r;
      }
    }
  }

  lemma {:induction false} NewestTime(candidates: set<Post>) returns (time: int)
    requires candidates != {}
    ensures At(candidates, time) != {} && forall c :: c in candidates ==> c.createAt <= time
    decreases candidates
  {
    var p :| p in candidates;
    time := p.createAt;
    if candidates != {p} {
      assert candidates - {p} != {};
      var t := NewestTime(candidates - {p});
      var q :| q in At(candidates - {p}, t);
      if t > time { time := t; }
      assert p in At(candidates, p.createAt) && q in At(candidates, t);
    } else {
      assert p in At(candidates, time);
    }
  }

  /** It is enough that the posts of the newest time are ordered: then one candidate is later
      than all others, whatever ties there are among older posts. */
  lemma OrderedNewestTiesHaveALatest(order: seq<string>, candidates: set<Post>) returns (p: Post)
    requires candidates != {} && DistinctPostIds(candidates)
    requires forall time :: (forall c :: c in candidates ==> c.createAt <= time) ==> TiesAreOrdered(OrderIndex(order), At(candidates, time))
    ensures IsLatest(OrderIndex(order), candidates, p)
  {
    var index := OrderIndex(order);
    OrderIndexIsInjective(order);
    var time := NewestTime(candidates);
    p := LatestOfTied(index, At(candidates, time), time);
    forall c | c in candidates && c != p ensures IsLater(index, p, c) {
      if c.createAt == time { assert c in At(candidates, time); }
    }
  }

  /** The newest tie being mixed may matter: a and b are ordered by the thread, each of them and
      c by ID, so that none of the three is the latest. */
  lemma MixedTiesCanMatter(a: Post, b: Post, c: Post)
    requires a.createAt == b.createAt == c.createAt && LexLess(a.id, c.id) && LexLess(c.id, b.id)
    ensures var index := OrderIndex([b.id, a.id]);
            forall p :: !IsLatest(index, {a, b, c}, p)
  {
    IndexOfTwo(a.id, b.id, c.id);
    LexIrreflexive(a.id);
    var index := OrderIndex([b.id, a.id]);
    assert !IsLater(index, b, a) && !IsLater(index, a, c);
    LaterIsAsymmetric(index, b, c);
    assert a in {a, b, c} && b in {a, b, c} && c in {a, b, c};
  }

  /** It need not: here b is the latest, and every reading picks it. */
  lemma MixedTiesNeedNotMatter(a: Post, b: Post)
    requires a.createAt == b.createAt && LexLess(a.id, b.id)
    ensures IsLatest(OrderIndex([b.id]), {a, b}, b)
  {
    LexIrreflexive(a.id);
    assert [b.id][..0] == [];
  }

  lemma IndexOfTwo(a: string, b: string, c: string)
    requires LexLess(a, c) && LexLess(c, b)
    ensures OrderIndex([b, a]) == map[b := 0, a := 1] && a != b && c != a && c != b
    ensures !LexLess(c, a) && !LexLess(b, a)
  {
    LexIrreflexive(a);
    LexIrreflexive(c);
    LexTransitive(a, c, b);
    if LexLess(c, a) { LexTransitive(a, c, a); }
    if LexLess(b, a) { LexTransitive(a, b, a); }
    assert [b, a][..1] == [b] && [b][..0] == [];
  }
}
