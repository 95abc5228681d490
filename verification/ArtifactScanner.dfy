/**
 Where the bridge script goes in an HTML artifact (api/api_artifacts.go): after a
 leading byte order mark, white space, comments and doctypes, and before anything else.
 The scanner finds the end of a comment by substring search; the reference is the comment
 tokenizer of the WHATWG HTML standard, sections 13.2.5.43 to 13.2.5.52.
 */
module ArtifactScanner {
  import opened ByteStrings

  const TAB: Byte := 0x09
  const LF: Byte := 0x0A
  const FF: Byte := 0x0C
  const CR: Byte := 0x0D
  const SPACE: Byte := 0x20
  const BANG: Byte := 0x21
  const DASH: Byte := 0x2D
  const SLASH: Byte := 0x2F
  const LT: Byte := 0x3C
  const GT: Byte := 0x3E

  const BOM: seq<Byte> := [0xEF, 0xBB, 0xBF]
  const COMMENT_OPEN: seq<Byte> := [LT, BANG, DASH, DASH]
  // "<!doctype"
  const DOCTYPE_OPEN: seq<Byte> := [LT, BANG, 0x64, 0x6F, 0x63, 0x74, 0x79, 0x70, 0x65]

  predicate StartsWith(b: seq<Byte>, prefix: seq<Byte>) {
    |prefix| <= |b| && b[..|prefix|] == prefix
  }

  // ------------------------------------------------- the standard's comment states

  datatype State =
    | CommentStart | CommentStartDash | Comment
    | LessThan | LessThanBang | LessThanBangDash | LessThanBangDashDash
    | EndDash | End | EndBang
    | Data

  function Rank(s: State): nat {
    match s
    case Comment => 0
    case LessThanBangDash => 2
    case LessThanBangDashDash => 2
    case _ => 1
  }

  /** One input byte; reconsuming it in another state is the recursive call. */
  function Consume(s: State, c: Byte): State
    decreases Rank(s)
  {
    match s
    case CommentStart => if c == DASH then CommentStartDash else if c == GT then Data else Consume(Comment, c)
    case CommentStartDash => if c == DASH then End else if c == GT then Data else Consume(Comment, c)
    case Comment => if c == LT then LessThan else if c == DASH then EndDash else Comment
    case LessThan => if c == BANG then LessThanBang else if c == LT then LessThan else Consume(Comment, c)
    case LessThanBang => if c == DASH then LessThanBangDash else Consume(Comment, c)
    case LessThanBangDash => if c == DASH then LessThanBangDashDash else Consume(EndDash, c)
    case LessThanBangDashDash => Consume(End, c)
    case EndDash => if c == DASH then End else Consume(Comment, c)
    case End => if c == GT then Data else if c == BANG then EndBang else if c == DASH then End else Consume(Comment, c)
    case EndBang => if c == DASH then EndDash else if c == GT then Data else Consume(Comment, c)
    case Data => Data
  }

  /** The position after the byte that closes the comment, or -1 if the input ends first. */
  function Tokenize(b: seq<Byte>, i: nat, s: State): int
    requires i <= |b|
    decreases |b| - i
  {
    if s == Data then i
    else if i == |b| then -1
    else Tokenize(b, i + 1, Consume(s, b[i]))
  }

  /** Where the standard closes the comment that b starts with. */
  function StandardCommentEnd(b: seq<Byte>): int
    requires StartsWith(b, COMMENT_OPEN)
  {
    Tokenize(b, 4, CommentStart)
  }

  // ------------------------------------------------- what closes a comment

  /** The text of the comment, which starts after its four opening bytes, is closed by
      the byte before e. */
  predicate ClosesAt(b: seq<Byte>, e: int) {
    && 5 <= e <= |b|
    && b[e - 1] == GT
    && (|| e == 5
        || (e == 6 && b[4] == DASH)
        || (e >= 7 && b[e - 3] == DASH && b[e - 2] == DASH)
        || (e >= 8 && b[e - 4] == DASH && b[e - 3] == DASH && b[e - 2] == BANG))
  }

  predicate FirstClose(b: seq<Byte>, e: int) {
    if e < 0 then e == -1 && forall k :: 0 <= k <= |b| ==> !ClosesAt(b, k)
    else ClosesAt(b, e) && forall k :: 0 <= k < e ==> !ClosesAt(b, k)
  }

  /** What has just been read when the tokenizer is in state s at position i. */
  predicate Reads(b: seq<Byte>, i: nat, s: State)
    requires 4 <= i <= |b|
  {
    match s
    case CommentStart => i == 4
    case CommentStartDash => i == 5 && b[4] == DASH
    case Comment =>
      && i >= 5 && b[i - 1] != DASH
      && !(i >= 7 && b[i - 1] == BANG && b[i - 2] == DASH && b[i - 3] == DASH)
    case LessThan => i >= 5 && b[i - 1] == LT
    case LessThanBang => i >= 6 && b[i - 1] == BANG && b[i - 2] == LT
    case LessThanBangDash => i >= 7 && b[i - 1] == DASH && b[i - 2] == BANG
    case LessThanBangDashDash => i >= 8 && b[i - 1] == DASH && b[i - 2] == DASH
    case EndDash => i >= 6 && b[i - 1] == DASH && b[i - 2] != DASH
    case End => i >= 6 && b[i - 1] == DASH && b[i - 2] == DASH
    case EndBang => i >= 7 && b[i - 1] == BANG && b[i - 2] == DASH && b[i - 3] == DASH
    case Data => ClosesAt(b, i)
  }

  lemma {:induction false} TokenizeFindsFirstClose(b: seq<Byte>, i: nat, s: State)
    requires 4 <= i <= |b| && Reads(b, i, s)
    requires forall k :: 0 <= k <= i ==> (ClosesAt(b, k) <==> k == i && s == Data)
    ensures FirstClose(b, Tokenize(b, i, s))
    decreases |b| - i
  {
    if s != Data && i < |b| {
      TokenizeFindsFirstClose(b, i + 1, Consume(s, b[i]));
    }
  }

  /** The tokenizer closes a comment at the first "-->" or "--!>" of its text, except
      that "<!-->" and "<!--->" are complete comments. */
  lemma StandardClosesFirst(b: seq<Byte>, e: int)
    requires StartsWith(b, COMMENT_OPEN)
    ensures StandardCommentEnd(b) == e <==> FirstClose(b, e)
  {
    TokenizeFindsFirstClose(b, 4, CommentStart);
  }

  // ------------------------------------------------- the scanner

  predicate MatchesAt(b: seq<Byte>, i: int, pattern: seq<Byte>) {
    0 <= i && i + |pattern| <= |b| && b[i..i + |pattern|] == pattern
  }

  method Index(b: seq<Byte>, pattern: seq<Byte>) returns (j: int)
    ensures j == -1 || MatchesAt(b, j, pattern)
    ensures forall k :: 0 <= k < (if j < 0 then |b| + 1 else j) ==> !MatchesAt(b, k, pattern)
  {
    j := 0;
    while j + |pattern| <= |b|
      invariant 0 <= j && forall k :: 0 <= k < j ==> !MatchesAt(b, k, pattern)
    {
      if b[j..j + |pattern|] == pattern { return; }
      j := j + 1;
    }
    return -1;
  }

  /** The substring search finds exactly the byte at which the tokenizer closes the
      comment, for every input. */
  method CommentEnd(b: seq<Byte>) returns (end: int)
    requires StartsWith(b, COMMENT_OPEN)
    ensures end == StandardCommentEnd(b)
  {
    if StartsWith(b, COMMENT_OPEN + [GT]) {
      ShortComment(b, 5);
      return 5;
    }
    if StartsWith(b, COMMENT_OPEN + [DASH, GT]) {
      ShortComment(b, 6);
      return 6;
    }
    var closer1, closer2 := [DASH, DASH, GT], [DASH, DASH, BANG, GT];
    var text := b[4..];
    end := -1;
    var j := Index(text, closer1);
    var j1 := j;
    if j >= 0 { end := 4 + j + 3; }
    j := Index(text, closer2);
    if j >= 0 && (end < 0 || 4 + j + 4 < end) { end := 4 + j + 4; }
    LongComment(b, j1, j, end);
  }

  lemma ShortComment(b: seq<Byte>, e: int)
    requires StartsWith(b, COMMENT_OPEN)
    requires (e == 5 && StartsWith(b, COMMENT_OPEN + [GT])) || (e == 6 && StartsWith(b, COMMENT_OPEN + [DASH, GT]))
    ensures StandardCommentEnd(b) == e
  {
    assert b[..e][e - 1] == GT && (e == 6 ==> b[..e][4] == DASH);
    assert FirstClose(b, e);
    StandardClosesFirst(b, e);
  }

  lemma CloserAt(b: seq<Byte>, k: int)
    requires 0 <= k && StartsWith(b, COMMENT_OPEN)
    ensures MatchesAt(b[4..], k, [DASH, DASH, GT]) <==>
            k + 7 <= |b| && b[k + 4] == DASH && b[k + 5] == DASH && b[k + 6] == GT
    ensures MatchesAt(b[4..], k, [DASH, DASH, BANG, GT]) <==>
            k + 8 <= |b| && b[k + 4] == DASH && b[k + 5] == DASH && b[k + 6] == BANG && b[k + 7] == GT
  {
    var text := b[4..];
    if k + 3 <= |text| {
      assert text[k..k + 3] == [text[k], text[k + 1], text[k + 2]];
    }
    if k + 4 <= |text| {
      assert text[k..k + 4] == [text[k], text[k + 1], text[k + 2], text[k + 3]];
    }
  }

  lemma LongComment(b: seq<Byte>, j1: int, j2: int, end: int)
    requires StartsWith(b, COMMENT_OPEN)
    requires !StartsWith(b, COMMENT_OPEN + [GT]) && !StartsWith(b, COMMENT_OPEN + [DASH, GT])
    requires j1 == -1 || MatchesAt(b[4..], j1, [DASH, DASH, GT])
    requires forall k :: 0 <= k < (if j1 < 0 then |b| - 3 else j1) ==> !MatchesAt(b[4..], k, [DASH, DASH, GT])
    requires j2 == -1 || MatchesAt(b[4..], j2, [DASH, DASH, BANG, GT])
    requires forall k :: 0 <= k < (if j2 < 0 then |b| - 3 else j2) ==> !MatchesAt(b[4..], k, [DASH, DASH, BANG, GT])
    requires end == if j2 >= 0 && (j1 < 0 || j2 + 8 < j1 + 7) then j2 + 8 else if j1 >= 0 then j1 + 7 else -1
    ensures StandardCommentEnd(b) == end
  {
    if |b| >= 5 { assert b[..5] == COMMENT_OPEN + [b[4]]; }
    if |b| >= 6 { assert b[..6] == COMMENT_OPEN + [b[4], b[5]]; }
    if j1 >= 0 { CloserAt(b, j1); }
    if j2 >= 0 { CloserAt(b, j2); }
    forall k | 0 <= k <= |b| && ClosesAt(b, k)
      ensures end >= 0 && end <= k
    {
      if k >= 7 { CloserAt(b, k - 7); }
      if k >= 8 { CloserAt(b, k - 8); }
    }
    assert FirstClose(b, end);
    StandardClosesFirst(b, end);
  }

  // ------------------------------------------------- the insert position

  predicate IsSpace(c: Byte) {
    c == SPACE || c == TAB || c == LF || c == CR || c == FF
  }

  /** ASCII lower case. Only ASCII letters fold to the letters of "doctype". */
  function Lower(c: Byte): Byte {
    if 0x41 <= c <= 0x5A then c + 0x20 else c
  }

  /** b starts with tag, letter case aside, followed by white space, '/' or '>'. */
  predicate HasTagPrefixFold(b: seq<Byte>, tag: seq<Byte>) {
    && |b| > |tag|
    && (forall k :: 0 <= k < |tag| ==> Lower(b[k]) == tag[k])
    && (IsSpace(b[|tag|]) || b[|tag|] == SLASH || b[|tag|] == GT)
  }

  /** The length of the tag that rest starts with, up to its first '>', or -1. */
  function TagEnd(rest: seq<Byte>, i: nat): int
    requires i <= |rest|
    decreases |rest| - i
  {
    if i == |rest| then -1 else if rest[i] == GT then i + 1 else TagEnd(rest, i + 1)
  }

  lemma {:induction false} TagEndIsFirst(rest: seq<Byte>, i: nat)
    requires i <= |rest|
    ensures var e := TagEnd(rest, i);
            if e < 0 then e == -1 && forall k :: i <= k < |rest| ==> rest[k] != GT
            else i < e <= |rest| && rest[e - 1] == GT && forall k :: i <= k < e - 1 ==> rest[k] != GT
    decreases |rest| - i
  {
    if i < |rest| && rest[i] != GT { TagEndIsFirst(rest, i + 1); }
  }

  /** The length of the white space, complete comment or complete doctype that rest
      starts with, or 0. */
  function LeadingItem(rest: seq<Byte>): nat {
    if rest == [] then 0
    else if IsSpace(rest[0]) then 1
    else if StartsWith(rest, COMMENT_OPEN) then NonNegative(StandardCommentEnd(rest))
    else if HasTagPrefixFold(rest, DOCTYPE_OPEN) then NonNegative(TagEnd(rest, 0))
    else 0
  }

  function NonNegative(n: int): nat {
    if n < 0 then 0 else n
  }

  lemma LeadingItemFits(rest: seq<Byte>)
    ensures 0 <= LeadingItem(rest) <= |rest|
  {
    if StartsWith(rest, COMMENT_OPEN) { StandardClosesFirst(rest, StandardCommentEnd(rest)); }
    TagEndIsFirst(rest, 0);
  }

  // space, tab, line feed, carriage return, form feed
  const WHITE_SPACE: seq<Byte> := [0x20, 0x09, 0x0A, 0x0D, 0x0C]

  /** "<!doctype" in any letter case, and then white space, '/' or '>'. */
  predicate OpensDoctype(b: seq<Byte>) {
    && |b| > 9 && b[0] == 0x3C && b[1] == 0x21
    && b[2] in [0x64, 0x44] && b[3] in [0x6F, 0x4F] && b[4] in [0x63, 0x43] && b[5] in [0x74, 0x54]
    && b[6] in [0x79, 0x59] && b[7] in [0x70, 0x50] && b[8] in [0x65, 0x45]
    && (b[9] in WHITE_SPACE || b[9] == 0x2F || b[9] == 0x3E)
  }

  lemma DoctypeMeans(b: seq<Byte>)
    ensures HasTagPrefixFold(b, DOCTYPE_OPEN) <==> OpensDoctype(b)
  {
    if |b| > 9 {
      forall k | 2 <= k < 9 ensures Lower(b[k]) == DOCTYPE_OPEN[k] <==> b[k] == DOCTYPE_OPEN[k] || b[k] == DOCTYPE_OPEN[k] - 0x20 { }
      assert HasTagPrefixFold(b, DOCTYPE_OPEN) ==> forall k :: 0 <= k < 9 ==> Lower(b[k]) == DOCTYPE_OPEN[k];
      assert OpensDoctype(b) ==> forall k :: 0 <= k < 9 ==> Lower(b[k]) == DOCTYPE_OPEN[k];
    }
  }

  /** The first '>' is the byte before n. */
  predicate FirstBracket(b: seq<Byte>, n: nat) {
    0 < n <= |b| && b[n - 1] == 0x3E && forall k :: 0 <= k < n - 1 ==> b[k] != 0x3E
  }

  /** One byte of white space, a comment with its first end, or a doctype up to its first '>'. */
  predicate IsItem(b: seq<Byte>, n: nat) {
    || (b != [] && b[0] in WHITE_SPACE && n == 1)
    || (|b| >= 4 && b[..4] == [0x3C, 0x21, 0x2D, 0x2D] && FirstClose(b, n))
    || (OpensDoctype(b) && FirstBracket(b, n))
  }

  /** These are the leading items. There is none exactly when the bytes start with none of these,
      or with a comment or doctype that has no end. */
  lemma LeadingItemMeans(b: seq<Byte>, n: nat)
    requires n > 0
    ensures LeadingItem(b) == n <==> IsItem(b, n)
  {
    if |b| >= 4 { assert b[0] == b[..4][0]; }
    if StartsWith(b, COMMENT_OPEN) {
      assert b[0] == b[..4][0] && b[2] == b[..4][2];
      StandardClosesFirst(b, StandardCommentEnd(b));
      StandardClosesFirst(b, n);
    }
    DoctypeMeans(b);
    TagEndIsFirst(b, 0);
  }

  /** doc[i..p] is a sequence of such items. */
  ghost predicate ItemsFill(doc: seq<Byte>, i: nat, p: nat)
    requires i <= |doc|
    decreases |doc| - i
  {
    i == p || exists n: nat :: 0 < n <= |doc| - i && IsItem(doc[i..], n) && ItemsFill(doc, i + n, p)
  }

  /** What comes first in the document is a byte order mark, if any, and then such items, and p is
      where they end. */
  ghost predicate ScriptBelongsAt(doc: seq<Byte>, p: nat) {
    && p <= |doc|
    && ItemsFill(doc, if |doc| >= 3 && doc[..3] == [0xEF, 0xBB, 0xBF] then 3 else 0, p)
    && forall n: nat :: n > 0 ==> !IsItem(doc[p..], n)
  }

  lemma {:induction false} LeadingFills(doc: seq<Byte>, i: nat, p: nat)
    requires i <= |doc| && Leading(doc, i, p)
    ensures ItemsFill(doc, i, p)
    decreases |doc| - i
  {
    if i != p {
      var n := LeadingItem(doc[i..]);
      LeadingItemMeans(doc[i..], n);
      LeadingFills(doc, i + n, p);
    }
  }

  lemma ItBelongsThere(doc: seq<Byte>, p: nat)
    requires InsertsAt(doc, p)
    ensures ScriptBelongsAt(doc, p)
  {
    LeadingFills(doc, Start(doc), p);
    forall n: nat | n > 0 ensures !IsItem(doc[p..], n) { LeadingItemMeans(doc[p..], n); }
  }

  /** Steps of the given lengths lead from i to p. */
  predicate Leads(step: nat -> nat, size: nat, i: nat, p: nat)
    requires i <= size
    decreases size - i
  {
    i == p || (step(i) > 0 && i + step(i) <= size && Leads(step, size, i + step(i), p))
  }

  lemma {:induction false} LeadsExtends(step: nat -> nat, size: nat, i: nat, p: nat)
    requires i <= size && Leads(step, size, i, p)
    ensures i <= p <= size
    ensures step(p) > 0 && p + step(p) <= size ==> Leads(step, size, i, p + step(p))
    decreases size - i
  {
    if i != p { LeadsExtends(step, size, i + step(i), p); }
  }

  /** The steps go one way only. */
  lemma {:induction false} LeadsToOneEnd(step: nat -> nat, size: nat, i: nat, p: nat, q: nat)
    requires i <= size && Leads(step, size, i, p) && Leads(step, size, i, q)
    requires step(p) == 0 && step(q) == 0
    ensures p == q
    decreases size - i
  {
    if i != p && i != q { LeadsToOneEnd(step, size, i + step(i), p, q); }
  }

  /** The same steps up to p lead to p. */
  lemma {:induction false} LeadsAlike(step: nat -> nat, size: nat, other: nat -> nat, otherSize: nat, i: nat, p: nat)
    requires i <= size && i <= otherSize && p <= otherSize && Leads(step, size, i, p)
    requires forall k: nat :: step(k) > 0 && k + step(k) <= p && p <= size ==> other(k) == step(k)
    ensures Leads(other, otherSize, i, p)
    decreases size - i
  {
    if i != p {
      LeadsExtends(step, size, i + step(i), p);
      LeadsAlike(step, size, other, otherSize, i + step(i), p);
    }
  }

  /** The length of the leading item at each position. */
  function ItemAt(doc: seq<Byte>): nat -> nat {
    (i: nat) => if i <= |doc| then LeadingItem(doc[i..]) else 0
  }

  /** doc[i..p] is white space, complete comments and complete doctypes. */
  predicate Leading(doc: seq<Byte>, i: nat, p: nat)
    requires i <= |doc|
  {
    Leads(ItemAt(doc), |doc|, i, p)
  }

  function Start(doc: seq<Byte>): (i: nat)
    ensures i <= |doc|
  {
    if StartsWith(doc, BOM) then 3 else 0
  }

  /** p is where the leading items end. */
  predicate InsertsAt(doc: seq<Byte>, p: nat) {
    p <= |doc| && Leading(doc, Start(doc), p) && LeadingItem(doc[p..]) == 0
  }

  /** Everything up to i is leading items. */
  predicate ReadTo(doc: seq<Byte>, i: nat) {
    i <= |doc| && Leading(doc, Start(doc), i)
  }

  lemma StartIsRead(doc: seq<Byte>)
    ensures ReadTo(doc, Start(doc))
  {
  }

  lemma ReadOn(doc: seq<Byte>, i: nat)
    requires ReadTo(doc, i)
    ensures ReadTo(doc, i + LeadingItem(doc[i..]))
    ensures LeadingItem(doc[i..]) == 0 ==> InsertsAt(doc, i)
  {
    LeadingExtends(doc, Start(doc), i);
  }

  /** The length of the comment or doctype at the start, or 0. */
  method SkipMarkup(rest: seq<Byte>) returns (n: nat)
    requires rest == [] || !IsSpace(rest[0])
    ensures n == LeadingItem(rest)
  {
    if StartsWith(rest, COMMENT_OPEN) {
      var end := CommentEnd(rest);
      if end < 0 { return 0; }
      return end;
    }
    if HasTagPrefixFold(rest, DOCTYPE_OPEN) {
      var end := TagEnd(rest, 0);
      if end < 0 { return 0; }
      return end;
    }
    return 0;
  }

  method SkipSpace(doc: seq<Byte>, i: nat) returns (j: nat)
    requires ReadTo(doc, i)
    ensures i <= j && ReadTo(doc, j)
    ensures j < |doc| ==> !IsSpace(doc[j])
  {
    j := i;
    while j < |doc| && IsSpace(doc[j])
      invariant i <= j <= |doc| && ReadTo(doc, j)
    {
      assert doc[j..][0] == doc[j] && LeadingItem(doc[j..]) == 1;
      ReadOn(doc, j);
      j := j + 1;
    }
  }

  /** One round of the scan: white space and then a comment or doctype. */
  method SkipItem(doc: seq<Byte>, i: nat) returns (j: nat, found: bool)
    requires ReadTo(doc, i)
    ensures i <= j && ReadTo(doc, j)
    ensures if found then i < j else InsertsAt(doc, j)
  {
    j := SkipSpace(doc, i);
    assert doc[j..] == [] || doc[j..][0] == doc[j];
    var n := SkipMarkup(doc[j..]);
    ReadOn(doc, j);
    return j + n, n > 0;
  }

  method ArtifactBridgeInsertPos(doc: seq<Byte>) returns (p: nat)
    ensures InsertsAt(doc, p) && ScriptBelongsAt(doc, p)
  {
    p := Start(doc);
    StartIsRead(doc);
    var found := true;
    while found
      invariant p <= |doc| && ReadTo(doc, p)
      invariant !found ==> InsertsAt(doc, p)
      decreases |doc| - p, found
    {
      p, found := SkipItem(doc, p);
    }
    ItBelongsThere(doc, p);
  }

  /** One more leading item. */
  lemma LeadingExtends(doc: seq<Byte>, i: nat, p: nat)
    requires i <= |doc| && p <= |doc| && Leading(doc, i, p)
    ensures i <= p
    ensures p + LeadingItem(doc[p..]) <= |doc| && Leading(doc, i, p + LeadingItem(doc[p..]))
  {
    LeadingItemFits(doc[p..]);
    LeadsExtends(ItemAt(doc), |doc|, i, p);
  }

  /** The leading items are read one way only, so the position is unique. */
  lemma LeadingEndIsUnique(doc: seq<Byte>, i: nat, p: nat, q: nat)
    requires i <= |doc| && p <= |doc| && q <= |doc| && Leading(doc, i, p) && Leading(doc, i, q)
    requires LeadingItem(doc[p..]) == 0 && LeadingItem(doc[q..]) == 0
    ensures p == q
  {
    LeadsToOneEnd(ItemAt(doc), |doc|, i, p, q);
  }

  // ------------------------------------------------- injecting and rescanning

  function Injected(doc: seq<Byte>, p: nat, script: seq<Byte>): seq<Byte>
    requires p <= |doc|
  {
    doc[..p] + script + doc[p..]
  }

  method InjectArtifactBridge(doc: seq<Byte>, script: seq<Byte>) returns (out: seq<Byte>)
    ensures exists p :: 0 <= p <= |doc| && InsertsAt(doc, p) && ScriptBelongsAt(doc, p) && out == doc[..p] + script + doc[p..]
  {
    var insertAt := ArtifactBridgeInsertPos(doc);
    out := doc[..insertAt];
    out := out + script;
    out := out + doc[insertAt..];
  }

  lemma {:induction false} TokenizePrefix(a: seq<Byte>, b: seq<Byte>, i: nat, s: State)
    requires i <= |a| && Tokenize(a, i, s) >= 0
    requires Tokenize(a, i, s) <= |a| && Tokenize(a, i, s) <= |b| && a[..Tokenize(a, i, s)] == b[..Tokenize(a, i, s)]
    requires i <= |b|
    ensures Tokenize(b, i, s) == Tokenize(a, i, s)
    decreases |a| - i
  {
    if s != Data {
      TokenizeGrows(a, i + 1, Consume(s, a[i]));
      var e := Tokenize(a, i, s);
      assert a[..e][i] == b[..e][i];
      TokenizePrefix(a, b, i + 1, Consume(s, a[i]));
    }
  }

  lemma {:induction false} TokenizeGrows(a: seq<Byte>, i: nat, s: State)
    requires i <= |a|
    ensures Tokenize(a, i, s) == -1 || i <= Tokenize(a, i, s) <= |a|
    decreases |a| - i
  {
    if s != Data && i < |a| { TokenizeGrows(a, i + 1, Consume(s, a[i])); }
  }

  lemma {:induction false} TagEndPrefix(a: seq<Byte>, b: seq<Byte>, i: nat)
    requires i <= |a| && i <= |b| && TagEnd(a, i) >= 0
    requires TagEnd(a, i) <= |a| && TagEnd(a, i) <= |b| && a[..TagEnd(a, i)] == b[..TagEnd(a, i)]
    ensures TagEnd(b, i) == TagEnd(a, i)
    decreases |a| - i
  {
    TagEndIsFirst(a, i);
    var e := TagEnd(a, i);
    assert a[..e][i] == b[..e][i];
    if a[i] != GT { TagEndPrefix(a, b, i + 1); }
  }

  /** A leading item is recognized by its own bytes alone. */
  lemma LeadingItemPrefix(a: seq<Byte>, b: seq<Byte>)
    requires LeadingItem(a) > 0 && LeadingItem(a) <= |b|
    requires LeadingItem(a) <= |a| && a[..LeadingItem(a)] == b[..LeadingItem(a)]
    ensures LeadingItem(b) == LeadingItem(a)
  {
    var n := LeadingItem(a);
    assert a[0] == a[..n][0] == b[..n][0] == b[0];
    if IsSpace(a[0]) {
    } else if StartsWith(a, COMMENT_OPEN) {
      StandardClosesFirst(a, n);
      assert a[..4] == a[..n][..4] && b[..4] == b[..n][..4];
      TokenizePrefix(a, b, 4, CommentStart);
    } else {
      DoctypePrefix(a, b);
    }
  }

  lemma DoctypePrefix(a: seq<Byte>, b: seq<Byte>)
    requires HasTagPrefixFold(a, DOCTYPE_OPEN)
    requires TagEnd(a, 0) >= 0 && TagEnd(a, 0) <= |a| && TagEnd(a, 0) <= |b| && a[..TagEnd(a, 0)] == b[..TagEnd(a, 0)]
    ensures LeadingItem(b) == TagEnd(a, 0)
  {
    var n := TagEnd(a, 0);
    TagEndIsFirst(a, 0);
    assert forall k :: 0 <= k < 9 ==> Lower(a[k]) == DOCTYPE_OPEN[k];
    assert n >= 10;
    assert forall k :: 0 <= k < n ==> a[k] == a[..n][k] == b[..n][k] == b[k];
    assert Lower(b[2]) == 0x64 && Lower(b[0]) == LT;
    TagEndPrefix(a, b, 0);
  }

  lemma SamePart(a: seq<Byte>, b: seq<Byte>, i: nat, n: nat, p: nat)
    requires i + n <= p <= |a| && p <= |b| && a[..p] == b[..p]
    ensures a[i..][..n] == b[i..][..n]
  {
    assert a[i..][..n] == a[..p][i..i + n];
    assert b[i..][..n] == b[..p][i..i + n];
  }

  lemma LeadingPrefix(a: seq<Byte>, b: seq<Byte>, i: nat, p: nat)
    requires i <= |a| && p <= |a| && p <= |b| && a[..p] == b[..p]
    requires Leading(a, i, p)
    ensures i <= |b| && Leading(b, i, p)
  {
    LeadsExtends(ItemAt(a), |a|, i, p);
    forall k: nat | ItemAt(a)(k) > 0 && k + ItemAt(a)(k) <= p
      ensures ItemAt(b)(k) == ItemAt(a)(k)
    {
      SameItem(a, b, k, p);
    }
    LeadsAlike(ItemAt(a), |a|, ItemAt(b), |b|, i, p);
  }

  lemma SameItem(a: seq<Byte>, b: seq<Byte>, k: nat, p: nat)
    requires k <= p <= |a| && p <= |b| && a[..p] == b[..p]
    requires LeadingItem(a[k..]) > 0 && k + LeadingItem(a[k..]) <= p
    ensures LeadingItem(b[k..]) == LeadingItem(a[k..])
  {
    SamePart(a, b, k, LeadingItem(a[k..]), p);
    LeadingItemPrefix(a[k..], b[k..]);
  }

  // "<script>"
  const SCRIPT_OPEN: seq<Byte> := [LT, 0x73, 0x63, 0x72, 0x69, 0x70, 0x74, GT]

  /** Scanning the injected document again finds the same position: the script comes
      after exactly the leading items of the document, and before everything else. */
  lemma RescanFindsTheScript(doc: seq<Byte>, p: nat, script: seq<Byte>)
    requires InsertsAt(doc, p) && StartsWith(script, SCRIPT_OPEN)
    ensures InsertsAt(Injected(doc, p, script), p)
  {
    var out := Injected(doc, p, script);
    assert out[..p] == doc[..p];
    SameStart(doc, p, script);
    LeadingPrefix(doc, out, Start(doc), p);
    ScriptComesNext(doc, p, script);
  }

  lemma ScriptComesNext(doc: seq<Byte>, p: nat, script: seq<Byte>)
    requires p <= |doc| && StartsWith(script, SCRIPT_OPEN)
    ensures p <= |Injected(doc, p, script)| && LeadingItem(Injected(doc, p, script)[p..]) == 0
  {
    assert Injected(doc, p, script)[p..] == script + doc[p..];
    ScriptIsNoLeadingItem(script, doc[p..]);
  }

  lemma ScriptIsNoLeadingItem(script: seq<Byte>, rest: seq<Byte>)
    requires StartsWith(script, SCRIPT_OPEN)
    ensures LeadingItem(script + rest) == 0
  {
    var b := script + rest;
    assert b[0] == script[..8][0] == LT && b[1] == script[..8][1] == 0x73;
    assert Lower(b[1]) != DOCTYPE_OPEN[1];
  }

  lemma SameStart(doc: seq<Byte>, p: nat, script: seq<Byte>)
    requires InsertsAt(doc, p) && StartsWith(script, SCRIPT_OPEN)
    ensures Start(Injected(doc, p, script)) == Start(doc)
  {
    var out := Injected(doc, p, script);
    assert script[0] == script[..8][0] == LT;
    LeadingExtends(doc, Start(doc), p);
    if StartsWith(doc, BOM) {
      assert out[..3] == doc[..p][..3];
    } else if p == 0 {
      assert out[0] == LT;
    } else {
      assert out[0] == doc[0] && doc[0..] == doc;
      if HasTagPrefixFold(doc, DOCTYPE_OPEN) { assert Lower(doc[0]) == DOCTYPE_OPEN[0]; }
    }
  }
}
