/**
 The limiter of ambient classifier calls (conversations/ambient_limiter.go): at most eight
 calls at once, and per channel a burst of six and then one call per five seconds.

 A channel's token bucket is exact: its credit is counted in nanoseconds, one token being
 worth INTERVAL of them, so refilling adds exactly the time that passed.
 */
module AmbientLimiter {
  import opened Collections

  const MAX_CONCURRENT := 8
  const BURST := 6
  const INTERVAL := 5_000_000_000
  const FULL := BURST * INTERVAL
  const MAX_TRACKED_CHANNELS := 1024

  type Time = int

  datatype Bucket = Bucket(credit: int, last: Time)

  type Channels = map<string, Bucket>

  function Min(a: int, b: int): int {
    if a < b then a else b
  }

  /** A time before the last grant counts as no time passed. */
  function CreditAt(b: Bucket, now: Time): int {
    Min(FULL, b.credit + if now < b.last then 0 else now - b.last)
  }

  /** A bucket that never granted anything. */
  function FreshBucket(now: Time): Bucket {
    Bucket(FULL, now)
  }

  /** Takes one token if there is one. A refusal changes nothing. */
  function Take(b: Bucket, now: Time): (r: (Bucket, bool)) {
    if CreditAt(b, now) >= INTERVAL then (Bucket(CreditAt(b, now) - INTERVAL, now), true) else (b, false)
  }

  datatype Outcome = Granted | RateLimited | Untracked

  function Pruned(channels: Channels, now: Time): Channels {
    map ch | ch in channels && CreditAt(channels[ch], now) < FULL :: channels[ch]
  }

  /** The channels after making room for one more, if it needs room. */
  function Roomy(channels: Channels, ch: string, now: Time): Channels {
    if ch !in channels && |channels| >= MAX_TRACKED_CHANNELS then Pruned(channels, now) else channels
  }

  function Decide(channels: Channels, ch: string, now: Time): (r: (Channels, Outcome)) {
    var roomy := Roomy(channels, ch, now);
    if ch !in channels && |roomy| >= MAX_TRACKED_CHANNELS then (roomy, Untracked)
    else
      var bucket := if ch in channels then channels[ch] else FreshBucket(now);
      var taken := Take(bucket, now);
      (roomy[ch := taken.0], if taken.1 then Granted else RateLimited)
  }

  datatype Call = Call(channel: string, now: Time)

  function After(channels: Channels, calls: seq<Call>): Channels {
    if calls == [] then channels
    else
      var last := calls[|calls| - 1];
      Decide(After(channels, calls[..|calls| - 1]), last.channel, last.now).0
  }

  /** What the call at index i of a sequence of calls is told. */
  function OutcomeAt(channels: Channels, calls: seq<Call>, i: nat): Outcome
    requires i < |calls|
  {
    Decide(After(channels, calls[..i]), calls[i].channel, calls[i].now).1
  }

  predicate Ordered(calls: seq<Call>) {
    forall i, j :: 0 <= i <= j < |calls| ==> calls[i].now <= calls[j].now
  }

  // ---------------------------------------------------------------- sliding windows

  /** The credit a channel has at a time; one that is not tracked has all of it. */
  function Credit(channels: Channels, ch: string, now: Time): int {
    if ch in channels then CreditAt(channels[ch], now) else FULL
  }

  /** No bucket is overdrawn or holds more than it can. */
  predicate InBounds(channels: Channels) {
    forall ch :: ch in channels ==> 0 <= channels[ch].credit <= FULL
  }

  /** No bucket is overdrawn or was used in the future. */
  predicate Sound(channels: Channels, now: Time) {
    forall ch :: ch in channels ==> 0 <= channels[ch].credit <= FULL && channels[ch].last <= now
  }

  /** A decision costs the asking channel one token if granted, and changes no other credit. */
  lemma DecisionCost(channels: Channels, call: Call, ch: string)
    requires InBounds(channels)
    ensures var (channels', outcome) := Decide(channels, call.channel, call.now);
            && InBounds(channels')
            && Credit(channels', ch, call.now) ==
               Credit(channels, ch, call.now) - if ch == call.channel && outcome.Granted? then INTERVAL else 0
  {
  }

  lemma DecisionIsSound(channels: Channels, call: Call)
    requires Sound(channels, call.now)
    ensures Sound(Decide(channels, call.channel, call.now).0, call.now)
  {
  }

  /** The time by which the second time is later, if it is. */
  function Ahead(t: Time, t': Time): nat {
    if t < t' then t' - t else 0
  }

  lemma CreditGrows(channels: Channels, ch: string, t: Time, t': Time)
    requires InBounds(channels)
    ensures 0 <= Credit(channels, ch, t) <= FULL
    ensures Credit(channels, ch, t') <= Credit(channels, ch, t) + Ahead(t, t')
  {
  }

  /** How often ch was granted among calls i to j. */
  function Grants(calls: seq<Call>, ch: string, i: nat, j: nat): nat
    requires i <= j <= |calls|
  {
    if i == j then 0
    else Grants(calls, ch, i, j - 1) +
         if calls[j - 1].channel == ch && OutcomeAt(map[], calls, j - 1).Granted? then 1 else 0
  }

  lemma {:induction false} RunIsInBounds(calls: seq<Call>, n: nat)
    requires n <= |calls|
    ensures InBounds(After(map[], calls[..n]))
  {
    if n > 0 {
      assert calls[..n][..n - 1] == calls[..n - 1];
      RunIsInBounds(calls, n - 1);
      DecisionCost(After(map[], calls[..n - 1]), calls[n - 1], "");
    }
  }

  lemma {:induction false} RunIsSound(calls: seq<Call>, n: nat, now: Time)
    requires Ordered(calls) && n <= |calls| && (n > 0 ==> calls[n - 1].now <= now)
    ensures Sound(After(map[], calls[..n]), now)
  {
    if n > 0 {
      assert calls[..n][..n - 1] == calls[..n - 1];
      RunIsSound(calls, n - 1, calls[n - 1].now);
      DecisionIsSound(After(map[], calls[..n - 1]), calls[n - 1]);
    }
  }

  /** How far the times of calls i to j move forward, steps back not counting. */
  function Forward(calls: seq<Call>, i: nat, j: nat): nat
    requires i < j <= |calls|
  {
    if i + 1 == j then 0 else Forward(calls, i, j - 1) + Ahead(calls[j - 2].now, calls[j - 1].now)
  }

  lemma {:induction false} ForwardInOrder(calls: seq<Call>, i: nat, j: nat)
    requires Ordered(calls) && i < j <= |calls|
    ensures Forward(calls, i, j) == calls[j - 1].now - calls[i].now
  {
    if i + 1 < j { ForwardInOrder(calls, i, j - 1); }
  }

  /** Credit at the start of a window, plus the time its calls move forward, pays for its
      grants, in whatever order the times come. */
  lemma {:induction false} WindowIsPaidFor(calls: seq<Call>, ch: string, i: nat, j: nat)
    requires i < j <= |calls|
    ensures PaidFor(calls, ch, i, j)
  {
    if i + 1 == j {
      FirstIsPaidFor(calls, ch, i);
    } else {
      WindowIsPaidFor(calls, ch, i, j - 1);
      OneMoreIsPaidFor(calls, ch, i, j);
    }
  }

  predicate PaidFor(calls: seq<Call>, ch: string, i: nat, j: nat)
    requires i < j <= |calls|
  {
    Grants(calls, ch, i, j) * INTERVAL + Credit(After(map[], calls[..j]), ch, calls[j - 1].now) <= FULL + Forward(calls, i, j)
  }

  /** What the last of j calls costs. */
  lemma LastCallCosts(calls: seq<Call>, ch: string, i: nat, j: nat)
    requires i < j <= |calls|
    ensures InBounds(After(map[], calls[..j - 1]))
    ensures Credit(After(map[], calls[..j]), ch, calls[j - 1].now) + Grants(calls, ch, i, j) * INTERVAL ==
            Credit(After(map[], calls[..j - 1]), ch, calls[j - 1].now) + Grants(calls, ch, i, j - 1) * INTERVAL
  {
    var k := j - 1;
    assert calls[..j][..k] == calls[..k];
    RunIsInBounds(calls, k);
    DecisionCost(After(map[], calls[..k]), calls[k], ch);
  }

  lemma FirstIsPaidFor(calls: seq<Call>, ch: string, i: nat)
    requires i < |calls|
    ensures PaidFor(calls, ch, i, i + 1)
  {
    LastCallCosts(calls, ch, i, i + 1);
    CreditGrows(After(map[], calls[..i]), ch, calls[i].now, calls[i].now);
  }

  lemma OneMoreIsPaidFor(calls: seq<Call>, ch: string, i: nat, j: nat)
    requires i + 1 < j <= |calls| && PaidFor(calls, ch, i, j - 1)
    ensures PaidFor(calls, ch, i, j)
  {
    LastCallCosts(calls, ch, i, j);
    CreditGrows(After(map[], calls[..j - 1]), ch, calls[j - 2].now, calls[j - 1].now);
  }

  lemma BoundFromPayment(grants: nat, credit: int, time: nat)
    requires 0 <= credit && grants * INTERVAL + credit <= FULL + time
    ensures grants <= BURST + time / INTERVAL
  {
    assert (grants - BURST) * INTERVAL <= time;
  }

  /** In any window of consecutive calls, a channel is granted at most 6 + T / 5s of them, T
      being the time that the calls move forward, whatever was pruned in between. */
  lemma WindowBoundInAnyOrder(calls: seq<Call>, ch: string, i: nat, j: nat)
    requires i < j <= |calls|
    ensures Grants(calls, ch, i, j) <= BURST + Forward(calls, i, j) / INTERVAL
  {
    WindowIsPaidFor(calls, ch, i, j);
    RunIsInBounds(calls, j);
    CreditGrows(After(map[], calls[..j]), ch, calls[j - 1].now, calls[j - 1].now);
    BoundFromPayment(Grants(calls, ch, i, j), Credit(After(map[], calls[..j]), ch, calls[j - 1].now), Forward(calls, i, j));
  }

  /** With times in order, T is how long the window lasts. */
  lemma WindowBound(calls: seq<Call>, ch: string, i: nat, j: nat)
    requires Ordered(calls) && i < j <= |calls|
    ensures Grants(calls, ch, i, j) <= BURST + (calls[j - 1].now - calls[i].now) / INTERVAL
  {
    WindowBoundInAnyOrder(calls, ch, i, j);
    ForwardInOrder(calls, i, j);
  }

  // ---------------------------------------------------------------- exactly which calls are granted

  /** Credit grows with time up to the full bucket. */
  lemma CreditLater(channels: Channels, ch: string, t: Time, t': Time)
    requires Sound(channels, t) && t <= t'
    ensures Credit(channels, ch, t') == Min(FULL, Credit(channels, ch, t) + t' - t)
  {
  }

  /** No window of calls from an earlier one on leaves less than x at time t. */
  predicate WindowsLeave(calls: seq<Call>, ch: string, i: nat, t: Time, x: int)
    requires i <= |calls|
  {
    x <= FULL && forall j :: 0 <= j < i ==> Grants(calls, ch, j, i) * INTERVAL + x <= FULL + t - calls[j].now
  }

  /** The credit is what the tightest window leaves. */
  lemma {:induction false} CreditIsTheTightestWindow(calls: seq<Call>, ch: string, i: nat, t: Time, x: int)
    requires Ordered(calls) && i <= |calls| && (i > 0 ==> calls[i - 1].now <= t)
    ensures Leaves(calls, ch, i, t, x)
  {
    if i > 0 {
      var k := i - 1;
      CreditIsTheTightestWindow(calls, ch, k, calls[k].now, x - (t - calls[k].now) + Cost(calls, ch, k));
      LeavesAfterCall(calls, ch, k, t, x);
    }
  }

  predicate Leaves(calls: seq<Call>, ch: string, i: nat, t: Time, x: int)
    requires i <= |calls|
  {
    x <= Credit(After(map[], calls[..i]), ch, t) <==> WindowsLeave(calls, ch, i, t, x)
  }

  function Cost(calls: seq<Call>, ch: string, k: nat): nat
    requires k < |calls|
  {
    if calls[k].channel == ch && OutcomeAt(map[], calls, k).Granted? then INTERVAL else 0
  }

  lemma LeavesAfterCall(calls: seq<Call>, ch: string, k: nat, t: Time, x: int)
    requires Ordered(calls) && k < |calls| && calls[k].now <= t
    requires Leaves(calls, ch, k, calls[k].now, x - (t - calls[k].now) + Cost(calls, ch, k))
    ensures Leaves(calls, ch, k + 1, t, x)
  {
    CreditAfterCall(calls, ch, k, t);
    WindowsGrow(calls, ch, k, t, x);
  }

  lemma CreditAfterCall(calls: seq<Call>, ch: string, k: nat, t: Time)
    requires Ordered(calls) && k < |calls| && calls[k].now <= t
    ensures Credit(After(map[], calls[..k + 1]), ch, t) ==
            Min(FULL, Credit(After(map[], calls[..k]), ch, calls[k].now) - Cost(calls, ch, k) + t - calls[k].now)
  {
    RunIsSound(calls, k + 1, calls[k].now);
    CreditLater(After(map[], calls[..k + 1]), ch, calls[k].now, t);
    AfterSnoc(calls, k);
    RunIsInBounds(calls, k);
    DecisionCost(After(map[], calls[..k]), calls[k], ch);
  }

  lemma WindowsGrow(calls: seq<Call>, ch: string, k: nat, t: Time, x: int)
    requires k < |calls|
    ensures WindowsLeave(calls, ch, k + 1, t, x) <==>
            x <= FULL && WindowsLeave(calls, ch, k, calls[k].now, x - (t - calls[k].now) + Cost(calls, ch, k))
  {
    var cost := Cost(calls, ch, k);
    var x' := x - (t - calls[k].now) + cost;
    assert Grants(calls, ch, k, k) == 0;
    forall j | 0 <= j <= k
      ensures Grants(calls, ch, j, k + 1) * INTERVAL == Grants(calls, ch, j, k) * INTERVAL + cost
      ensures Grants(calls, ch, j, k + 1) * INTERVAL + x <= FULL + t - calls[j].now <==>
              Grants(calls, ch, j, k) * INTERVAL + x' <= FULL + calls[k].now - calls[j].now
    {
    }
    if WindowsLeave(calls, ch, k + 1, t, x) {
      assert Grants(calls, ch, k, k + 1) * INTERVAL + x <= FULL + t - calls[k].now;
    }
  }

  /** With times in order a call that can be tracked is granted exactly if no window that ends
      with it would then have more than 6 + T / 5s grants: the limiter refuses nothing more. */
  lemma GrantedExactly(calls: seq<Call>, i: nat)
    requires Ordered(calls) && i < |calls| && !OutcomeAt(map[], calls, i).Untracked?
    ensures OutcomeAt(map[], calls, i).Granted? <==>
            forall j :: 0 <= j <= i ==>
              (Grants(calls, calls[i].channel, j, i) + 1) * 5_000_000_000 <= 30_000_000_000 + calls[i].now - calls[j].now
  {
    CreditIsTheTightestWindow(calls, calls[i].channel, i, calls[i].now, INTERVAL);
    assert Grants(calls, calls[i].channel, i, i) == 0;
  }

  /** A call is not tracked exactly when its channel is new and 1024 others are in use. */
  lemma UntrackedExactly(calls: seq<Call>, i: nat)
    requires i < |calls|
    ensures var channels := After(map[], calls[..i]);
            OutcomeAt(map[], calls, i).Untracked? <==>
            && calls[i].channel !in channels && |channels| >= 1024
            && |set ch | ch in channels && CreditAt(channels[ch], calls[i].now) < 30_000_000_000| >= 1024
    ensures OutcomeAt(map[], calls, i).Untracked? ==>
              var channels := After(map[], calls[..i]);
              After(map[], calls[..i + 1]).Keys == set ch | ch in channels && CreditAt(channels[ch], calls[i].now) < 30_000_000_000
  {
    AfterSnoc(calls, i);
    var channels := After(map[], calls[..i]);
    var pruned := Pruned(channels, calls[i].now);
    var inUse := set ch | ch in channels && CreditAt(channels[ch], calls[i].now) < 30_000_000_000;
    assert pruned.Keys == inUse;
    assert |pruned| == |pruned.Keys|;
  }

  /** Two callers on one channel take turns, one with times five seconds behind. */
  predicate TakesTurns(calls: seq<Call>) {
    forall k :: 0 <= k < |calls| ==> calls[k] == Call("c", if k % 2 == 0 then INTERVAL else 0)
  }

  /** The order of the times matters: time.Now is read before the lock is taken, and a
      grant made with an earlier time than the one before it sets the bucket's clock back,
      so that the same seconds are credited again. Here a channel gets eight grants within
      five seconds instead of seven. */
  lemma DisorderBreaksTheBound(calls: seq<Call>)
    requires |calls| == 8 && TakesTurns(calls)
    ensures forall k :: 0 <= k < |calls| ==> 0 <= calls[k].now <= INTERVAL
    ensures Grants(calls, "c", 0, |calls|) == 8 > BURST + INTERVAL / INTERVAL
  {
    forall k | 0 <= k < 8 ensures OutcomeAt(map[], calls, k).Granted? {
      TurnGranted(calls, k);
    }
    AllGranted(calls, 8);
  }

  /** The tokens left after the call at index k. */
  function TokensLeft(k: nat): int {
    if k % 2 == 0 then 5 - k / 2 else 4 - k / 2
  }

  lemma {:induction false} TurnGranted(calls: seq<Call>, k: nat)
    requires k < |calls| == 8 && TakesTurns(calls)
    ensures OutcomeAt(map[], calls, k).Granted?
    ensures After(map[], calls[..k + 1]) == map["c" := Bucket(TokensLeft(k) * INTERVAL, calls[k].now)]
  {
    AfterSnoc(calls, k);
    if k > 0 {
      TurnGranted(calls, k - 1);
      CreditOfTurn(calls, k);
      DecideOne(Bucket(TokensLeft(k - 1) * INTERVAL, calls[k - 1].now), calls[k].now);
    }
  }

  lemma CreditOfTurn(calls: seq<Call>, k: nat)
    requires 0 < k < |calls| == 8 && TakesTurns(calls)
    ensures CreditAt(Bucket(TokensLeft(k - 1) * INTERVAL, calls[k - 1].now), calls[k].now) ==
            TokensLeft(k) * INTERVAL + INTERVAL >= INTERVAL
  {
    var j := k - 1;
    assert calls[j] == Call("c", if j % 2 == 0 then INTERVAL else 0);
    assert calls[k] == Call("c", if k % 2 == 0 then INTERVAL else 0);
  }

  lemma AfterSnoc(calls: seq<Call>, k: nat)
    requires k < |calls|
    ensures After(map[], calls[..k + 1]) == Decide(After(map[], calls[..k]), calls[k].channel, calls[k].now).0
  {
    assert calls[..k + 1][..k] == calls[..k];
  }

  lemma DecideOne(bucket: Bucket, now: Time)
    requires CreditAt(bucket, now) >= INTERVAL
    ensures Decide(map["c" := bucket], "c", now) == (map["c" := Bucket(CreditAt(bucket, now) - INTERVAL, now)], Granted)
  {
    var taken := Bucket(CreditAt(bucket, now) - INTERVAL, now);
    assert map["c" := bucket]["c" := taken] == map["c" := taken];
  }

  lemma {:induction false} AllGranted(calls: seq<Call>, j: nat)
    requires j <= |calls| && forall k :: 0 <= k < j ==> calls[k].channel == "c" && OutcomeAt(map[], calls, k).Granted?
    ensures Grants(calls, "c", 0, j) == j
  {
    if j > 0 { AllGranted(calls, j - 1); }
  }

  // ---------------------------------------------------------------- pruning is invisible

  /** A limiter with room for every channel that never forgets one. */
  function UnprunedBucket(buckets: Channels, ch: string, now: Time): Bucket {
    if ch in buckets then buckets[ch] else FreshBucket(now)
  }

  /** The unpruned limiter is shown the calls that were not refused for lack of room. */
  function UnprunedAfter(calls: seq<Call>): Channels {
    if calls == [] then map[]
    else
      var n := |calls| - 1;
      var before := UnprunedAfter(calls[..n]);
      if Decide(After(map[], calls[..n]), calls[n].channel, calls[n].now).1.Untracked? then before
      else before[calls[n].channel := Take(UnprunedBucket(before, calls[n].channel, calls[n].now), calls[n].now).0]
  }

  /** Making room for call j drops channel ch. */
  predicate Drops(calls: seq<Call>, j: nat, ch: string)
    requires j < |calls|
  {
    var channels := After(map[], calls[..j]);
    ch in channels && ch !in Roomy(channels, calls[j].channel, calls[j].now)
  }

  /** The last call has no time before that of an earlier call that dropped its channel. */
  predicate InTime(calls: seq<Call>)
    requires calls != []
  {
    var n := |calls| - 1;
    forall j :: 0 <= j < n && Drops(calls, j, calls[n].channel) ==> calls[j].now <= calls[n].now
  }

  /** No call returns to a channel with a time before the one at which it was dropped. */
  predicate ReturnInTime(calls: seq<Call>) {
    calls == [] || (ReturnInTime(calls[..|calls| - 1]) && InTime(calls))
  }

  /** The unpruned bucket of a channel that is not tracked any more was full when it was dropped. */
  predicate DroppedFull(calls: seq<Call>, ch: string, bucket: Bucket) {
    exists j :: 0 <= j < |calls| && Drops(calls, j, ch) && CreditAt(bucket, calls[j].now) == FULL
  }

  /** Tracked channels have the unpruned bucket, the others one that was full when dropped. */
  predicate Simulates(calls: seq<Call>, channels: Channels, buckets: Channels) {
    && (forall ch :: ch in channels ==> ch in buckets && buckets[ch] == channels[ch])
    && (forall ch :: ch in buckets && ch !in channels ==> DroppedFull(calls, ch, buckets[ch]))
  }

  lemma DropsEarlier(calls: seq<Call>, j: nat, n: nat, ch: string)
    requires j < n <= |calls|
    ensures Drops(calls[..n], j, ch) <==> Drops(calls, j, ch)
  {
    assert calls[..n][..j] == calls[..j] && calls[..n][j] == calls[j];
  }

  lemma DroppedStays(calls: seq<Call>, ch: string, bucket: Bucket)
    requires calls != [] && DroppedFull(calls[..|calls| - 1], ch, bucket)
    ensures DroppedFull(calls, ch, bucket)
  {
    var n := |calls| - 1;
    var j :| 0 <= j < n && Drops(calls[..n], j, ch) && CreditAt(bucket, calls[..n][j].now) == FULL;
    DropsEarlier(calls, j, n, ch);
  }

  /** The bucket that decides the last call, and one that was never dropped, take alike. */
  lemma TakesAlike(calls: seq<Call>, channels: Channels, buckets: Channels)
    requires calls != [] && InTime(calls) && Simulates(calls[..|calls| - 1], channels, buckets)
    ensures var call := calls[|calls| - 1];
            Take(UnprunedBucket(channels, call.channel, call.now), call.now) == Take(UnprunedBucket(buckets, call.channel, call.now), call.now)
  {
    var call := calls[|calls| - 1];
    if call.channel in buckets && call.channel !in channels { ReturnsFull(calls, buckets[call.channel]); }
    FullTakesAlike(channels, buckets, call.channel, call.now);
  }

  lemma FullTakesAlike(channels: Channels, buckets: Channels, ch: string, now: Time)
    requires ch in channels ==> ch in buckets && buckets[ch] == channels[ch]
    requires ch in buckets && ch !in channels ==> CreditAt(buckets[ch], now) == FULL
    ensures Take(UnprunedBucket(channels, ch, now), now) == Take(UnprunedBucket(buckets, ch, now), now)
  {
  }

  lemma ReturnsFull(calls: seq<Call>, bucket: Bucket)
    requires calls != [] && InTime(calls)
    requires DroppedFull(calls[..|calls| - 1], calls[|calls| - 1].channel, bucket)
    ensures CreditAt(bucket, calls[|calls| - 1].now) == FULL
  {
    var n := |calls| - 1;
    DroppedStays(calls, calls[n].channel, bucket);
    var j :| 0 <= j < n && Drops(calls[..n], j, calls[n].channel) && CreditAt(bucket, calls[..n][j].now) == FULL;
    DropsEarlier(calls, j, n, calls[n].channel);
    assert calls[j].now <= calls[n].now;
  }

  lemma OneMoreSimulates(calls: seq<Call>)
    requires calls != [] && InTime(calls)
    requires RunSimulated(calls[..|calls| - 1])
    ensures RunSimulated(calls)
  {
    var n := |calls| - 1;
    var channels, buckets := After(map[], calls[..n]), UnprunedAfter(calls[..n]);
    TakesAlike(calls, channels, buckets);
    forall ch | ch in buckets && ch !in Roomy(channels, calls[n].channel, calls[n].now)
      ensures DroppedFull(calls, ch, buckets[ch])
    {
      if ch in channels { IsDropped(calls, ch); } else { DroppedStays(calls, ch, buckets[ch]); }
    }
    DecideSimulates(calls, channels, buckets, calls[n]);
  }

  lemma NothingIsSimulated(calls: seq<Call>)
    requires calls == []
    ensures RunSimulated(calls)
  {
  }

  predicate RunSimulated(calls: seq<Call>) {
    Simulates(calls, After(map[], calls), UnprunedAfter(calls))
  }

  lemma IsDropped(calls: seq<Call>, ch: string)
    requires calls != []
    requires var n := |calls| - 1;
             var channels := After(map[], calls[..n]);
             ch in channels && ch !in Roomy(channels, calls[n].channel, calls[n].now)
    ensures Drops(calls, |calls| - 1, ch)
    ensures CreditAt(After(map[], calls[..|calls| - 1])[ch], calls[|calls| - 1].now) == FULL
  {
  }

  lemma DecideSimulates(calls: seq<Call>, channels: Channels, buckets: Channels, call: Call)
    requires forall ch :: ch in channels ==> ch in buckets && buckets[ch] == channels[ch]
    requires forall ch :: ch in buckets && ch !in Roomy(channels, call.channel, call.now) ==> DroppedFull(calls, ch, buckets[ch])
    requires Take(UnprunedBucket(channels, call.channel, call.now), call.now) == Take(UnprunedBucket(buckets, call.channel, call.now), call.now)
    ensures var (channels', outcome) := Decide(channels, call.channel, call.now);
            Simulates(calls, channels',
                      if outcome.Untracked? then buckets
                      else buckets[call.channel := Take(UnprunedBucket(buckets, call.channel, call.now), call.now).0])
  {
  }

  lemma {:induction false} RunSimulates(calls: seq<Call>)
    requires ReturnInTime(calls)
    ensures RunSimulated(calls)
  {
    if calls != [] {
      RunSimulates(calls[..|calls| - 1]);
      OneMoreSimulates(calls);
    } else {
      NothingIsSimulated(calls);
    }
  }

  /** The call at index i is decided as by a limiter that never prunes, or refused for lack of room. */
  predicate PruningIsInvisible(calls: seq<Call>, i: nat)
    requires i < |calls|
  {
    var outcome := OutcomeAt(map[], calls, i);
    outcome.Untracked? ||
    (outcome.Granted? <==> Take(UnprunedBucket(UnprunedAfter(calls[..i]), calls[i].channel, calls[i].now), calls[i].now).1)
  }

  /** As long as no call up to this one returns to a channel with a time before the one at which
      it was dropped, pruning is invisible. */
  lemma PruningChangesNoDecision(calls: seq<Call>, i: nat)
    requires i < |calls| && ReturnInTime(calls[..i + 1])
    ensures PruningIsInvisible(calls, i)
  {
    assert calls[..i + 1][..i] == calls[..i];
    RunSimulates(calls[..i]);
    TakesAlike(calls[..i + 1], After(map[], calls[..i]), UnprunedAfter(calls[..i]));
  }

  /** Times in order do. */
  lemma {:induction false} OrderedCallsReturnInTime(calls: seq<Call>)
    requires Ordered(calls)
    ensures ReturnInTime(calls)
  {
    if calls != [] { OrderedCallsReturnInTime(calls[..|calls| - 1]); }
  }

  // ---------------------------------------------------------------- returning too early

  /** Six calls on one channel at one time, after these. */
  function Burst(calls: seq<Call>, ch: string, now: Time, n: nat): seq<Call> {
    if n == 0 then calls else Burst(calls, ch, now, n - 1) + [Call(ch, now)]
  }

  /** A call of a burst that is decided as without pruning. */
  predicate DecidedAlike(calls: seq<Call>, ch: string, now: Time) {
    PruningIsInvisible(calls + [Call(ch, now)], |calls|)
  }

  /** What one more call on a channel that is tracked or can be does. */
  lemma CallOnChannel(calls: seq<Call>, ch: string, now: Time)
    requires ch in After(map[], calls) || |After(map[], calls)| < MAX_TRACKED_CHANNELS
    ensures var taken := Take(UnprunedBucket(After(map[], calls), ch, now), now);
            var unpruned := Take(UnprunedBucket(UnprunedAfter(calls), ch, now), now);
            var more := calls + [Call(ch, now)];
            && After(map[], more) == After(map[], calls)[ch := taken.0]
            && UnprunedAfter(more) == UnprunedAfter(calls)[ch := unpruned.0]
            && (DecidedAlike(calls, ch, now) <==> (taken.1 <==> unpruned.1))
  {
    var more := calls + [Call(ch, now)];
    assert more[..|calls|] == calls && more[|calls|] == Call(ch, now);
  }

  /** A channel has been dropped, and there is room for it. */
  predicate WasDropped(calls: seq<Call>, ch: string) {
    ch !in After(map[], calls) && |After(map[], calls)| < MAX_TRACKED_CHANNELS && ch in UnprunedAfter(calls)
  }

  /** So are n of them. */
  predicate AllAlike(calls: seq<Call>, ch: string, now: Time, n: nat) {
    n == 0 || (AllAlike(calls, ch, now, n - 1) && DecidedAlike(Burst(calls, ch, now, n - 1), ch, now))
  }

  /** After n calls that were decided alike, the fresh bucket is ahead of the dropped one by what
      that lacked. */
  predicate KeepsAhead(calls: seq<Call>, ch: string, now: Time, n: nat) {
    var burst := Burst(calls, ch, now, n);
    && (ch in After(map[], burst) || |After(map[], burst)| < MAX_TRACKED_CHANNELS)
    && CreditAt(UnprunedBucket(After(map[], burst), ch, now), now) == FULL - n * INTERVAL
    && ch in UnprunedAfter(calls) && ch in UnprunedAfter(burst)
    && CreditAt(UnprunedAfter(burst)[ch], now) == CreditAt(UnprunedAfter(calls)[ch], now) - n * INTERVAL >= 0
  }

  lemma {:induction false} StaysAhead(calls: seq<Call>, ch: string, now: Time, n: nat)
    requires WasDropped(calls, ch) && n <= BURST && AllAlike(calls, ch, now, n)
    ensures KeepsAhead(calls, ch, now, n)
  {
    if n == 0 {
      StartsLevel(calls, ch, now);
    } else {
      StaysAhead(calls, ch, now, n - 1);
      OneMoreAhead(calls, ch, now, n);
    }
  }

  lemma StartsLevel(calls: seq<Call>, ch: string, now: Time)
    requires WasDropped(calls, ch)
    ensures KeepsAhead(calls, ch, now, 0)
  {
    UnprunedInBounds(calls);
    FreshIsFull(After(map[], calls), ch, now);
  }

  lemma FreshIsFull(channels: Channels, ch: string, now: Time)
    requires ch !in channels
    ensures CreditAt(UnprunedBucket(channels, ch, now), now) == FULL
  {
  }

  lemma OneMoreAhead(calls: seq<Call>, ch: string, now: Time, n: nat)
    requires 0 < n <= BURST && KeepsAhead(calls, ch, now, n - 1)
    requires DecidedAlike(Burst(calls, ch, now, n - 1), ch, now)
    ensures KeepsAhead(calls, ch, now, n)
  {
    CallOnChannel(Burst(calls, ch, now, n - 1), ch, now);
  }

  lemma {:induction false} UnprunedInBounds(calls: seq<Call>)
    ensures InBounds(UnprunedAfter(calls))
  {
    if calls != [] { UnprunedInBounds(calls[..|calls| - 1]); }
  }

  /** The next call on the channel is decided alike, and changes both buckets alike. */
  predicate TakesAsUnpruned(calls: seq<Call>, ch: string, now: Time) {
    && (ch in After(map[], calls) || |After(map[], calls)| < MAX_TRACKED_CHANNELS)
    && Take(UnprunedBucket(After(map[], calls), ch, now), now) == Take(UnprunedBucket(UnprunedAfter(calls), ch, now), now)
  }

  lemma NextTakesAsUnpruned(calls: seq<Call>, ch: string, now: Time)
    requires TakesAsUnpruned(calls, ch, now)
    ensures DecidedAlike(calls, ch, now) && TakesAsUnpruned(calls + [Call(ch, now)], ch, now)
  {
    CallOnChannel(calls, ch, now);
  }

  lemma {:induction false} StaysAlike(calls: seq<Call>, ch: string, now: Time, n: nat)
    requires TakesAsUnpruned(calls, ch, now)
    ensures AlikeFor(calls, ch, now, n)
  {
    if n > 0 {
      StaysAlike(calls, ch, now, n - 1);
      AlikeForOneMore(calls, ch, now, n - 1);
    }
  }

  predicate AlikeFor(calls: seq<Call>, ch: string, now: Time, n: nat) {
    AllAlike(calls, ch, now, n) && TakesAsUnpruned(Burst(calls, ch, now, n), ch, now)
  }

  lemma AlikeForOneMore(calls: seq<Call>, ch: string, now: Time, n: nat)
    requires AlikeFor(calls, ch, now, n)
    ensures AlikeFor(calls, ch, now, n + 1)
  {
    NextTakesAsUnpruned(Burst(calls, ch, now, n), ch, now);
  }

  /** The exact condition: once a channel has been dropped and while there is room for it, six
      calls on it at one time are all decided as without pruning if and only if its bucket, had
      it been kept, would be full at that time. */
  lemma DroppedIsDecidedAlikeExactly(calls: seq<Call>, ch: string, now: Time)
    requires WasDropped(calls, ch)
    ensures AllAlike(calls, ch, now, BURST) <==> CreditAt(UnprunedAfter(calls)[ch], now) == FULL
  {
    if AllAlike(calls, ch, now, BURST) { AlikeMeansFull(calls, ch, now); }
    if CreditAt(UnprunedAfter(calls)[ch], now) == FULL { FullMeansAlike(calls, ch, now); }
  }

  lemma AlikeMeansFull(calls: seq<Call>, ch: string, now: Time)
    requires WasDropped(calls, ch) && AllAlike(calls, ch, now, BURST)
    ensures CreditAt(UnprunedAfter(calls)[ch], now) == FULL
  {
    StaysAhead(calls, ch, now, BURST);
  }

  lemma FullMeansAlike(calls: seq<Call>, ch: string, now: Time)
    requires WasDropped(calls, ch) && CreditAt(UnprunedAfter(calls)[ch], now) == FULL
    ensures AllAlike(calls, ch, now, BURST)
  {
    FullTakesAlike(After(map[], calls), UnprunedAfter(calls), ch, now);
    StaysAlike(calls, ch, now, BURST);
  }

  /** Whether a bucket grants calls at these times, in turn. */
  function Decisions(bucket: Bucket, times: seq<Time>): seq<bool>
    decreases |times|
  {
    if times == [] then []
    else [Take(bucket, times[0]).1] + Decisions(Take(bucket, times[0]).0, times[1..])
  }

  function FreshDecisions(times: seq<Time>): seq<bool> {
    if times == [] then [] else Decisions(FreshBucket(times[0]), times)
  }

  predicate NoneBefore(times: seq<Time>, earliest: Time) {
    forall i :: 0 <= i < |times| ==> times[i] >= earliest
  }

  /** Since when a bucket is full, if it is not used. */
  function FullSince(bucket: Bucket): Time {
    bucket.last + FULL - bucket.credit
  }

  /** The exact condition: whatever times follow, none of them before a given one, a fresh bucket
      in its place decides alike if and only if the bucket is full at that time. */
  lemma DroppingIsInvisibleExactly(bucket: Bucket, earliest: Time)
    requires 0 <= bucket.credit < FULL
    ensures (forall times :: NoneBefore(times, earliest) ==> Decisions(bucket, times) == FreshDecisions(times)) <==>
            earliest >= FullSince(bucket)
  {
    if earliest >= FullSince(bucket) {
      forall times | NoneBefore(times, earliest) ensures Decisions(bucket, times) == FreshDecisions(times) {
        if times != [] { assert Take(bucket, times[0]) == Take(FreshBucket(times[0]), times[0]); }
      }
    } else {
      var times := seq(BURST, i => earliest);
      EarlyCallsTell(bucket, earliest);
      assert NoneBefore(times, earliest);
    }
  }

  /** Six calls at a time at which a bucket is not full tell it from a fresh one, which grants
      them all. */
  lemma EarlyCallsTell(bucket: Bucket, now: Time)
    requires 0 <= bucket.credit && CreditAt(bucket, now) < FULL
    ensures var times := seq(BURST, i => now);
            Decisions(bucket, times) != FreshDecisions(times) == seq(BURST, i => true)
  {
    SameTime(bucket, now, BURST);
    SameTime(FreshBucket(now), now, BURST);
    var times := seq(BURST, i => now);
    assert !Decisions(bucket, times)[BURST - 1];
    assert FreshDecisions(times) == seq(BURST, i => true);
  }

  /** A nanosecond is enough: a bucket that is dropped as soon as it is full, and six calls whose
      time was read just before. */
  lemma NanosecondTellsADroppedBucket(ch: string, bucket: Bucket)
    requires 0 <= bucket.credit < FULL
    ensures Pruned(map[ch := bucket], FullSince(bucket)) == map[]
    ensures var times := seq(BURST, i => FullSince(bucket) - 1);
            Decisions(bucket, times) != FreshDecisions(times) == seq(BURST, i => true)
  {
    EarlyCallsTell(bucket, FullSince(bucket) - 1);
  }

  /** Calls at one time are granted as far as the credit goes. */
  lemma {:induction false} SameTime(bucket: Bucket, now: Time, n: nat)
    requires 0 <= bucket.credit
    ensures var decisions := Decisions(bucket, seq(n, i => now));
            |decisions| == n && forall k :: 0 <= k < n ==> (decisions[k] <==> CreditAt(bucket, now) >= (k + 1) * INTERVAL)
    decreases n
  {
    if n > 0 {
      var times := seq(n, i => now);
      assert times[1..] == seq(n - 1, i => now);
      SameTime(Take(bucket, now).0, now, n - 1);
    }
  }

  // ---------------------------------------------------------------- concurrent calls

  datatype Phase = Checking(channel: string) | InFlight

  /** slots counts the occupied places of the slots channel; log are the rate checks in
      the order they took the lock. */
  datatype Limiter = Limiter(slots: nat, channels: Channels, calls: map<nat, Phase>, log: seq<Call>)

  datatype Step =
    | Reserve(id: nat, channel: string)
    | Check(id: nat, now: Time)
    | Release(id: nat)

  /** When a step can happen. */
  predicate Guard(s: Limiter, step: Step) {
    match step
    case Reserve(id, _) => id !in s.calls
    case Check(id, _) => id in s.calls && s.calls[id].Checking?
    case Release(id) => id in s.calls && s.calls[id].InFlight?
  }

  /** There is a slot to give back. This holds in every reachable state (GuardSuffices), so it
      never holds a step back. */
  predicate Enabled(s: Limiter, step: Step) {
    Guard(s, step) && (step.Reserve? || s.slots > 0)
  }

  function Apply(s: Limiter, step: Step): Limiter
    requires Enabled(s, step)
  {
    match step
    case Reserve(id, ch) =>
      if s.slots < MAX_CONCURRENT then s.(slots := s.slots + 1, calls := s.calls[id := Checking(ch)]) else s
    case Check(id, now) =>
      var ch := s.calls[id].channel;
      var (channels, outcome) := Decide(s.channels, ch, now);
      var checked := s.(channels := channels, log := s.log + [Call(ch, now)]);
      if outcome.Granted? then checked.(calls := s.calls[id := InFlight])
      else checked.(slots := s.slots - 1, calls := s.calls - {id})
    case Release(id) => s.(slots := s.slots - 1, calls := s.calls - {id})
  }

  predicate Reaches(s: Limiter, steps: seq<Step>, t: Limiter)
    decreases |steps|
  {
    if steps == [] then t == s
    else Enabled(s, steps[0]) && Reaches(Apply(s, steps[0]), steps[1..], t)
  }

  const IDLE := Limiter(0, map[], map[], [])

  predicate Invariant(s: Limiter) {
    && s.slots == |s.calls| && s.slots <= MAX_CONCURRENT
    && s.channels == After(map[], s.log)
  }

  lemma {:induction false} RunKeepsInvariant(s: Limiter, steps: seq<Step>, t: Limiter)
    requires Invariant(s) && Reaches(s, steps, t)
    ensures Invariant(t)
    decreases |steps|
  {
    if steps != [] {
      StepKeepsInvariant(s, steps[0]);
      RunKeepsInvariant(Apply(s, steps[0]), steps[1..], t);
    }
  }

  lemma StepKeepsInvariant(s: Limiter, step: Step)
    requires Invariant(s) && Enabled(s, step)
    ensures Invariant(Apply(s, step))
  {
    if !step.Reserve? { Removed(s.calls, step.id); }
    if step.Check? { OneMoreCall(s.log, Call(s.calls[step.id].channel, step.now)); }
  }

  lemma OneMoreCall(log: seq<Call>, call: Call)
    ensures After(map[], log + [call]) == Decide(After(map[], log), call.channel, call.now).0
  {
    var calls := log + [call];
    assert calls[..|calls| - 1] == log && calls[|log|] == call;
  }

  lemma Removed<V>(m: map<nat, V>, id: nat)
    requires id in m
    ensures |m - {id}| == |m| - 1
  {
    assert (m - {id}).Keys == m.Keys - {id};
  }

  /** A slot is taken exactly if fewer than eight calls hold one. */
  lemma ReservedExactly(s: Limiter, id: nat, ch: string)
    requires Invariant(s) && id !in s.calls
    ensures var t := Apply(s, Reserve(id, ch));
            (id in t.calls <==> |s.calls| < 8) && forall other :: other != id ==> (other in t.calls <==> other in s.calls)
  {
  }

  lemma GuardSuffices(s: Limiter, step: Step)
    requires Invariant(s) && Guard(s, step)
    ensures Enabled(s, step)
  {
    assert !step.Reserve? ==> step.id in s.calls;
  }

  function Running(s: Limiter): set<nat> {
    set id | id in s.calls && s.calls[id].InFlight?
  }

  /** In every interleaving at most eight slots are occupied, one by each call that runs
      or is being checked, and the rate checks are those of a sequential limiter. */
  lemma SlotsMatchCalls(steps: seq<Step>, t: Limiter)
    requires Reaches(IDLE, steps, t)
    ensures t.slots == |t.calls| <= MAX_CONCURRENT
    ensures |Running(t)| <= t.slots
    ensures (forall id :: id in t.calls ==> t.calls[id].InFlight?) ==> |Running(t)| == t.slots
    ensures t.channels == After(map[], t.log)
  {
    RunKeepsInvariant(IDLE, steps, t);
    SubsetSize(Running(t), t.calls.Keys);
    if forall id :: id in t.calls ==> t.calls[id].InFlight? { assert Running(t) == t.calls.Keys; }
  }

  // ---------------------------------------------------------------- the limiter object

  class AmbientLimiter {
    var slots: nat
    var channels: Channels

    constructor ()
      ensures slots == 0 && channels == map[]
    {
      slots, channels := 0, map[];
    }

    method PruneIdle(now: Time)
      modifies this`channels
      ensures channels == Pruned(old(channels), now)
    {
      var left := channels.Keys;
      while left != {}
        invariant left <= old(channels).Keys
        invariant channels == map ch | ch in old(channels) && (ch in left || CreditAt(old(channels)[ch], now) < FULL) :: old(channels)[ch]
        decreases left
      {
        var ch :| ch in left;
        if CreditAt(channels[ch], now) >= FULL { channels := channels - {ch}; }
        left := left - {ch};
      }
    }

    method AllowChannel(ch: string, now: Time) returns (ok: bool)
      modifies this`channels
      ensures channels == Decide(old(channels), ch, now).0
      ensures ok <==> Decide(old(channels), ch, now).1.Granted?
    {
      var bucket: Bucket;
      if ch in channels {
        bucket := channels[ch];
      } else {
        if |channels| >= MAX_TRACKED_CHANNELS {
          PruneIdle(now);
          if |channels| >= MAX_TRACKED_CHANNELS { return false; }
        }
        bucket := FreshBucket(now);
      }
      var taken := Take(bucket, now);
      channels := channels[ch := taken.0];
      ok := taken.1;
    }

    /** A slot is held on success, until Release. */
    method TryAcquire(ch: string, now: Time) returns (ok: bool)
      requires slots <= MAX_CONCURRENT
      modifies this
      ensures slots <= MAX_CONCURRENT
      ensures ok <==> old(slots) < 8 && Decide(old(channels), ch, now).1.Granted?
      ensures slots == old(slots) + if ok then 1 else 0
      ensures channels == if old(slots) < MAX_CONCURRENT then Decide(old(channels), ch, now).0 else old(channels)
    {
      if slots >= MAX_CONCURRENT { return false; }
      slots := slots + 1;
      ok := AllowChannel(ch, now);
      if !ok { slots := slots - 1; }
    }

    method Release()
      requires slots > 0
      modifies this`slots
      ensures slots == old(slots) - 1
    {
      slots := slots - 1;
    }
  }
}
