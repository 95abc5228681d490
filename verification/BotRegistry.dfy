/**
 The bot registry of one node (bots/bots.go): full rebuilds by EnsureBots, which are skipped
 when nothing changed, single-agent rebuilds by RefreshAgent, and forced refreshes.
 */
module BotRegistry {
  import opened Wrappers
  import opened Collections
  import opened LLMServices

  /** Other stands for the settings that only matter when configurations are compared. */
  datatype BotConfig = BotConfig(id: string, name: string, botUserId: string, serviceId: string, other: string, settingsOk: bool)

  type Lineup = seq<BotConfig>

  /** A bot being served, and the version of the stored agents it was built from. */
  datatype Entry = Entry(cfg: BotConfig, version: nat)

  datatype Registry = Registry(bots: seq<Entry>, lastBots: Lineup, lastServices: Services, forceRefresh: bool)

  predicate UniqueIds(cfgs: Lineup) {
    forall i, j :: 0 <= i < j < |cfgs| ==> cfgs[i].id != cfgs[j].id
  }

  // ---------------------------------------------------------------- comparing lineups

  /** The last configuration with each ID. */
  function ByID(cfgs: Lineup): (m: map<string, BotConfig>)
    ensures forall id :: id in m ==> m[id] in cfgs && m[id].id == id
    ensures forall cfg :: cfg in cfgs ==> cfg.id in m
  {
    if cfgs == [] then map[]
    else
      var last := cfgs[|cfgs| - 1];
      assert cfgs == cfgs[..|cfgs| - 1] + [last];
      ByID(cfgs[..|cfgs| - 1])[last.id := last]
  }

  predicate ConfigsEqual(a: Lineup, b: Lineup) {
    |a| == |b| && AllHeld(ByID(a), b, |b|)
  }

  /** The first n configurations are held under their IDs. */
  predicate AllHeld(byId: map<string, BotConfig>, b: Lineup, n: nat)
    requires n <= |b|
  {
    forall i :: 0 <= i < n ==> b[i].id in byId && byId[b[i].id] == b[i]
  }

  method BotConfigsEqual(a: Lineup, b: Lineup) returns (equal: bool)
    ensures equal <==> ConfigsEqual(a, b)
  {
    if |a| != |b| { return false; }
    var aMap := MapByID(a);
    equal := CompareWith(aMap, b);
  }

  method CompareWith(aMap: map<string, BotConfig>, b: Lineup) returns (equal: bool)
    ensures equal <==> AllHeld(aMap, b, |b|)
  {
    for i := 0 to |b|
      invariant AllHeld(aMap, b, i)
    {
      if b[i].id !in aMap { return false; }
      if aMap[b[i].id] != b[i] { return false; }
    }
    return true;
  }

  method MapByID(cfgs: Lineup) returns (byId: map<string, BotConfig>)
    ensures byId == ByID(cfgs)
  {
    byId := map[];
    for i := 0 to |cfgs|
      invariant byId == ByID(cfgs[..i])
    {
      assert cfgs[..i + 1][..i] == cfgs[..i];
      byId := byId[cfgs[i].id := cfgs[i]];
    }
    assert cfgs[..|cfgs|] == cfgs;
  }

  method ServiceConfigsEqual(a: Services, b: Services) returns (equal: bool)
    ensures equal <==> a == b
  {
    if |a| != |b| { return false; }
    var left := a.Keys;
    while left != {}
      invariant left <= a.Keys
      invariant forall id :: id in a && id !in left ==> id in b && a[id] == b[id]
      decreases left
    {
      var id :| id in left;
      if id !in b || a[id] != b[id] { return false; }
      left := left - {id};
    }
    SameSizeSameKeys(a, b);
    return true;
  }

  lemma SameSizeSameKeys(a: Services, b: Services)
    requires |a| == |b| && forall id :: id in a ==> id in b && a[id] == b[id]
    ensures a == b
  {
    SubsetOfEqualSize(a.Keys, b.Keys);
  }

  function Ids(cfgs: Lineup): (ids: set<string>)
    ensures forall cfg :: cfg in cfgs ==> cfg.id in ids
    ensures |ids| <= |cfgs|
  {
    if cfgs == [] then {}
    else
      var last := cfgs[|cfgs| - 1];
      assert cfgs == cfgs[..|cfgs| - 1] + [last];
      Ids(cfgs[..|cfgs| - 1]) + {last.id}
  }

  lemma {:induction false} IdsAreTheirs(cfgs: Lineup, id: string)
    ensures id in Ids(cfgs) <==> exists i :: 0 <= i < |cfgs| && cfgs[i].id == id
  {
    if cfgs != [] {
      var n := |cfgs| - 1;
      IdsAreTheirs(cfgs[..n], id);
      if i :| 0 <= i < n && cfgs[i].id == id { assert cfgs[..n][i].id == id; }
    }
  }

  lemma {:induction false} UniqueIdsCount(cfgs: Lineup)
    ensures UniqueIds(cfgs) <==> |Ids(cfgs)| == |cfgs|
  {
    if cfgs != [] {
      var n := |cfgs| - 1;
      UniqueIdsCount(cfgs[..n]);
      IdsAreTheirs(cfgs[..n], cfgs[n].id);
      if cfgs[n].id in Ids(cfgs[..n]) {
        var i :| 0 <= i < n && cfgs[..n][i].id == cfgs[n].id;
        assert cfgs[i].id == cfgs[n].id;
        assert Ids(cfgs) == Ids(cfgs[..n]);
      } else {
        UniqueSnoc(cfgs);
      }
    }
  }

  lemma UniqueSnoc(cfgs: Lineup)
    requires cfgs != [] && cfgs[|cfgs| - 1].id !in Ids(cfgs[..|cfgs| - 1])
    ensures UniqueIds(cfgs) <==> UniqueIds(cfgs[..|cfgs| - 1])
  {
    var n := |cfgs| - 1;
    forall i | 0 <= i < n ensures cfgs[i].id != cfgs[n].id { assert cfgs[i] == cfgs[..n][i]; }
    if UniqueIds(cfgs[..n]) {
      forall i, j | 0 <= i < j < |cfgs| ensures cfgs[i].id != cfgs[j].id {
        if j < n { assert cfgs[..n][i].id != cfgs[..n][j].id; }
      }
    }
    if UniqueIds(cfgs) {
      forall i, j | 0 <= i < j < n ensures cfgs[..n][i].id != cfgs[..n][j].id { }
    }
  }

  /** With unique IDs among the new configurations, they are equal by ID exactly when the two
      lineups hold the same configurations, in any order, and then the old IDs were unique. */
  lemma EqualMeansSameConfigs(a: Lineup, b: Lineup)
    requires UniqueIds(b)
    ensures ConfigsEqual(a, b) <==> (UniqueIds(a) && forall cfg :: cfg in a <==> cfg in b)
  {
    if ConfigsEqual(a, b) { EqualImpliesSame(a, b); }
    if UniqueIds(a) && forall cfg :: cfg in a <==> cfg in b { SameImpliesEqual(a, b); }
  }

  lemma EqualImpliesSame(a: Lineup, b: Lineup)
    requires UniqueIds(b) && ConfigsEqual(a, b)
    ensures UniqueIds(a) && forall cfg :: cfg in a <==> cfg in b
  {
    forall id | id in Ids(b) ensures id in Ids(a) { IdsAreTheirs(b, id); }
    UniqueIdsCount(b);
    SubsetOfEqualSize(Ids(b), Ids(a));
    UniqueIdsCount(a);
    forall cfg | cfg in a ensures cfg in b {
      IdsAreTheirs(b, cfg.id);
      var i :| 0 <= i < |b| && b[i].id == cfg.id;
      OneById(a, cfg, b[i]);
    }
  }

  lemma OneById(cfgs: Lineup, x: BotConfig, y: BotConfig)
    requires UniqueIds(cfgs) && x in cfgs && y in cfgs && x.id == y.id
    ensures x == y
  {
    var i :| 0 <= i < |cfgs| && cfgs[i] == x;
    var j :| 0 <= j < |cfgs| && cfgs[j] == y;
    assert i == j by { assert !(i < j) && !(j < i); }
  }

  lemma SameImpliesEqual(a: Lineup, b: Lineup)
    requires UniqueIds(a) && UniqueIds(b) && forall cfg :: cfg in a <==> cfg in b
    ensures ConfigsEqual(a, b)
  {
    UniqueIdsCount(a);
    UniqueIdsCount(b);
    SameIds(a, b);
    SameIds(b, a);
    assert Ids(a) == Ids(b);
    forall i | 0 <= i < |b| ensures b[i].id in ByID(a) && ByID(a)[b[i].id] == b[i] {
      OneById(a, b[i], ByID(a)[b[i].id]);
    }
  }

  lemma SameIds(a: Lineup, b: Lineup)
    requires forall cfg :: cfg in a ==> cfg in b
    ensures Ids(a) <= Ids(b)
  {
    forall id | id in Ids(a) ensures id in Ids(b) {
      IdsAreTheirs(a, id);
      var i :| 0 <= i < |a| && a[i].id == id;
      assert a[i] in b;
    }
  }

  /** With a repeated ID the comparison overlooks a configuration that is gone. */
  lemma RepeatedIdsHideAChange(x: BotConfig, y: BotConfig)
    requires x.id != y.id
    ensures ConfigsEqual([x, y], [y, y]) && x !in [y, y]
  {
    var a := [x, y];
    assert a[..1] == [x] && a[..1][..0] == [];
    assert ByID(a) == map[][x.id := x][y.id := y];
  }

  // ---------------------------------------------------------------- one rebuild

  /** What a rebuild meets outside the registry: the services it reads, the bots whose
      account it cannot bring in line, those whose model it cannot build, and whether the
      lineup can be copied. */
  datatype Outcome = Outcome(live: Services, unsynced: set<BotConfig>, unbuildable: set<BotConfig>, copied: bool)

  predicate Servable(cfg: BotConfig, live: Services) {
    cfg.settingsOk && cfg.serviceId in live && IsValidService(live[cfg.serviceId])
  }

  function ServableBots(lineup: Lineup, live: Services): (bots: Lineup)
    ensures forall cfg :: cfg in bots <==> cfg in lineup && Servable(cfg, live)
  {
    if lineup == [] then []
    else
      var n := |lineup| - 1;
      assert lineup == lineup[..n] + [lineup[n]];
      var before := ServableBots(lineup[..n], live);
      if Servable(lineup[n], live) then before + [lineup[n]] else before
  }

  predicate DistinctNames(bots: Lineup) {
    forall i, j :: 0 <= i < j < |bots| ==> bots[i].name != bots[j].name
  }

  function Synced(bots: Lineup, unsynced: set<BotConfig>, version: nat): (entries: seq<Entry>)
    ensures forall e :: e in entries <==> e.version == version && e.cfg in bots && e.cfg !in unsynced
  {
    if bots == [] then []
    else
      var n := |bots| - 1;
      assert bots == bots[..n] + [bots[n]];
      var before := Synced(bots[..n], unsynced, version);
      if bots[n] in unsynced then before else before + [Entry(bots[n], version)]
  }

  /** A rebuild gives up on repeated names and on a model that cannot be built. */
  predicate Fails(lineup: Lineup, o: Outcome) {
    var bots := ServableBots(lineup, o.live);
    !DistinctNames(bots) || AnyUnbuildable(bots, o)
  }

  function Rebuilt(r: Registry, lineup: Lineup, services: Services, version: nat, o: Outcome): Registry {
    if Fails(lineup, o) then r
    else
      var bots := ServableBots(lineup, o.live);
      var swapped := r.(bots := Synced(bots, o.unsynced, version));
      if AnyUnsynced(bots, o) then
        swapped.(lastBots := [], lastServices := map[], forceRefresh := true)
      else if !o.copied then swapped
      else swapped.(lastBots := lineup, lastServices := services, forceRefresh := false)
  }

  /** The configuration is complete, and so is its service. */
  predicate CanServe(cfg: BotConfig, live: Services) {
    && cfg.settingsOk && cfg.serviceId in live
    && live[cfg.serviceId].id != "" && live[cfg.serviceId].kind != "" && live[cfg.serviceId].settingsOk
  }

  /** Exactly the configurations that can be served and have an account are, each from this
      version, and in the order of the lineup. */
  ghost predicate ServesInOrder(bots: seq<Entry>, lineup: Lineup, version: nat, o: Outcome) {
    && (forall e :: e in bots <==> e.version == version && e.cfg in lineup && CanServe(e.cfg, o.live) && e.cfg !in o.unsynced)
    && EntriesInOrder(bots, lineup)
  }

  predicate EntriesInOrder(bots: seq<Entry>, lineup: Lineup) {
    forall i, j :: 0 <= i < j < |bots| ==> Before(lineup, bots[i].cfg, bots[j].cfg)
  }

  predicate InOrder(bots: Lineup, lineup: Lineup) {
    forall i, j :: 0 <= i < j < |bots| ==> Before(lineup, bots[i], bots[j])
  }

  predicate Before(lineup: Lineup, x: BotConfig, y: BotConfig) {
    exists a, b :: 0 <= a < b < |lineup| && lineup[a] == x && lineup[b] == y
  }

  lemma BeforeInMore(lineup: Lineup, x: BotConfig, y: BotConfig, last: BotConfig)
    requires Before(lineup, x, y)
    ensures Before(lineup + [last], x, y)
  {
    var a, b :| 0 <= a < b < |lineup| && lineup[a] == x && lineup[b] == y;
    assert (lineup + [last])[a] == x && (lineup + [last])[b] == y;
  }

  lemma BeforeTheLast(lineup: Lineup, x: BotConfig, last: BotConfig)
    requires x in lineup
    ensures Before(lineup + [last], x, last)
  {
    var a :| 0 <= a < |lineup| && lineup[a] == x;
    assert (lineup + [last])[a] == x && (lineup + [last])[|lineup|] == last;
  }

  lemma {:induction false} ServableInOrder(lineup: Lineup, live: Services)
    ensures InOrder(ServableBots(lineup, live), lineup)
  {
    if lineup != [] {
      var n := |lineup| - 1;
      var before, bots := ServableBots(lineup[..n], live), ServableBots(lineup, live);
      ServableInOrder(lineup[..n], live);
      assert lineup == lineup[..n] + [lineup[n]];
      forall i, j | 0 <= i < j < |bots| ensures Before(lineup, bots[i], bots[j]) {
        if j < |before| { BeforeInMore(lineup[..n], before[i], before[j], lineup[n]); }
        else { assert before[i] in before; BeforeTheLast(lineup[..n], before[i], lineup[n]); }
      }
    }
  }

  lemma {:induction false} SyncedInOrder(bots: Lineup, unsynced: set<BotConfig>, version: nat)
    ensures EntriesInOrder(Synced(bots, unsynced, version), bots)
  {
    if bots != [] {
      var n := |bots| - 1;
      var before, entries := Synced(bots[..n], unsynced, version), Synced(bots, unsynced, version);
      SyncedInOrder(bots[..n], unsynced, version);
      assert bots == bots[..n] + [bots[n]];
      forall i, j | 0 <= i < j < |entries| ensures Before(bots, entries[i].cfg, entries[j].cfg) {
        if j < |before| { BeforeInMore(bots[..n], before[i].cfg, before[j].cfg, bots[n]); }
        else { assert before[i] in before; BeforeTheLast(bots[..n], before[i].cfg, bots[n]); }
      }
    }
  }

  /** A rebuild fails exactly if two configurations to be served have one name, or the model of
      one cannot be built. */
  lemma FailsExactly(lineup: Lineup, o: Outcome)
    ensures Fails(lineup, o) <==>
            || (exists x, y :: Before(lineup, x, y) && CanServe(x, o.live) && CanServe(y, o.live) && x.name == y.name)
            || (exists cfg :: cfg in lineup && CanServe(cfg, o.live) && cfg !in o.unsynced && cfg in o.unbuildable)
  {
    RepeatedNames(lineup, o.live);
    BrokenMeans(lineup, o);
  }

  lemma BrokenMeans(lineup: Lineup, o: Outcome)
    ensures AnyUnbuildable(ServableBots(lineup, o.live), o) <==>
            exists cfg :: cfg in lineup && CanServe(cfg, o.live) && cfg !in o.unsynced && cfg in o.unbuildable
  {
    var bots := ServableBots(lineup, o.live);
    forall cfg ensures cfg in bots <==> cfg in lineup && CanServe(cfg, o.live) { }
  }

  lemma RebuiltServesInOrder(r: Registry, lineup: Lineup, services: Services, version: nat, o: Outcome)
    ensures !Fails(lineup, o) ==> ServesInOrder(Rebuilt(r, lineup, services, version, o).bots, lineup, version, o)
  {
    SyncedServesInOrder(lineup, version, o);
  }

  lemma SyncedServesInOrder(lineup: Lineup, version: nat, o: Outcome)
    ensures ServesInOrder(Synced(ServableBots(lineup, o.live), o.unsynced, version), lineup, version, o)
  {
    var bots := ServableBots(lineup, o.live);
    ServableInOrder(lineup, o.live);
    SyncedInOrder(bots, o.unsynced, version);
    OrderCarriesOver(Synced(bots, o.unsynced, version), bots, lineup);
  }

  lemma OrderCarriesOver(entries: seq<Entry>, bots: Lineup, lineup: Lineup)
    requires EntriesInOrder(entries, bots) && InOrder(bots, lineup)
    ensures EntriesInOrder(entries, lineup)
  {
    forall i, j | 0 <= i < j < |entries| ensures Before(lineup, entries[i].cfg, entries[j].cfg) {
      var a, b :| 0 <= a < b < |bots| && bots[a] == entries[i].cfg && bots[b] == entries[j].cfg;
      assert Before(lineup, bots[a], bots[b]);
    }
  }

  lemma {:induction false} RepeatedNames(lineup: Lineup, live: Services)
    ensures !DistinctNames(ServableBots(lineup, live)) <==>
            exists x, y :: Before(lineup, x, y) && CanServe(x, live) && CanServe(y, live) && x.name == y.name
  {
    var bots := ServableBots(lineup, live);
    ServableInOrder(lineup, live);
    if x, y :| Before(lineup, x, y) && CanServe(x, live) && CanServe(y, live) && x.name == y.name {
      RepeatedShow(lineup, live, x, y);
    }
    if i, j :| 0 <= i < j < |bots| && bots[i].name == bots[j].name {
      assert bots[i] in bots && bots[j] in bots && Before(lineup, bots[i], bots[j]);
    }
  }

  lemma {:induction false} RepeatedShow(lineup: Lineup, live: Services, x: BotConfig, y: BotConfig)
    requires Before(lineup, x, y) && CanServe(x, live) && CanServe(y, live)
    ensures Before(ServableBots(lineup, live), x, y)
  {
    var n := |lineup| - 1;
    var a, b :| 0 <= a < b < |lineup| && lineup[a] == x && lineup[b] == y;
    var before := ServableBots(lineup[..n], live);
    if b < n {
      assert lineup[..n][a] == x && lineup[..n][b] == y;
      RepeatedShow(lineup[..n], live, x, y);
      if Servable(lineup[n], live) { BeforeInMore(before, x, y, lineup[n]); }
    } else {
      assert lineup[..n][a] == x;
      BeforeTheLast(before, x, y);
    }
  }

  /** Whether EnsureBots may skip the rebuild for what it has just read. */
  predicate Unchanged(r: Registry, lineup: Lineup, services: Services) {
    r.bots != [] && !r.forceRefresh && ConfigsEqual(r.lastBots, lineup) && r.lastServices == services
  }

  /** The first entry of the agent gives its place to the new one, if there is one. */
  function Swapped(bots: seq<Entry>, agentId: string, bot: Option<Entry>): seq<Entry> {
    if bots == [] then (if bot.Some? then [bot.value] else [])
    else if bots[0].cfg.id != agentId then [bots[0]] + Swapped(bots[1..], agentId, bot)
    else if bot.Some? then [bot.value] + Swapped(bots[1..], agentId, None)
    else Swapped(bots[1..], agentId, None)
  }

  /** The entries of the other agents. */
  function Others(bots: seq<Entry>, agentId: string): seq<Entry> {
    if bots == [] then [] else (if bots[0].cfg.id != agentId then [bots[0]] else []) + Others(bots[1..], agentId)
  }

  /** The swap keeps the other agents' entries in order; it puts the new entry where the agent's
      first one was, or last if there was none. */
  lemma {:induction false} SwapKeepsPlaces(bots: seq<Entry>, agentId: string, bot: Option<Entry>)
    requires bot.Some? ==> bot.value.cfg.id == agentId
    ensures Others(Swapped(bots, agentId, bot), agentId) == Others(bots, agentId)
    ensures bot.None? ==> Swapped(bots, agentId, bot) == Others(bots, agentId)
  {
    if bots != [] {
      var rest := bots[1..];
      SwapKeepsPlaces(rest, agentId, bot);
      SwapKeepsPlaces(rest, agentId, None);
      var swapped := Swapped(bots, agentId, bot);
      if swapped != [] { assert swapped[1..] == swapped[1..] && swapped == [swapped[0]] + swapped[1..]; }
      if bots[0].cfg.id == agentId && bot.Some? { assert swapped[1..] == Swapped(rest, agentId, None); }
      if bots[0].cfg.id != agentId { assert swapped[1..] == Swapped(rest, agentId, bot); }
    }
  }

  lemma {:induction false} SwapKeepsFirstPlace(bots: seq<Entry>, agentId: string, bot: Entry, k: nat)
    requires k <= |bots| && (forall i :: 0 <= i < k ==> bots[i].cfg.id != agentId)
    requires k < |bots| ==> bots[k].cfg.id == agentId
    ensures var swapped := Swapped(bots, agentId, Some(bot)); k < |swapped| && swapped[..k] == bots[..k] && swapped[k] == bot
  {
    if k > 0 {
      assert forall i :: 0 <= i < k - 1 ==> bots[1..][i] == bots[i + 1];
      SwapKeepsFirstPlace(bots[1..], agentId, bot, k - 1);
      assert bots[..k] == [bots[0]] + bots[1..][..k - 1];
      var swapped := Swapped(bots, agentId, Some(bot));
      assert swapped[..k] == [bots[0]] + swapped[1..][..k - 1];
    }
  }

  /** After the swap the agent's only entry is the new one, and the others are as before, in
      the same order. */
  lemma {:induction false} SwapReplacesOne(bots: seq<Entry>, agentId: string, bot: Option<Entry>)
    requires bot.Some? ==> bot.value.cfg.id == agentId
    ensures forall e :: e in Swapped(bots, agentId, bot) <==> (e in bots && e.cfg.id != agentId) || bot == Some(e)
    ensures Swapped(Swapped(bots, agentId, bot), agentId, None) == Swapped(bots, agentId, None)
  {
    if bots != [] {
      var rest := bots[1..];
      assert bots == [bots[0]] + rest;
      SwapReplacesOne(rest, agentId, if bots[0].cfg.id != agentId then bot else None);
    }
  }

  // ---------------------------------------------------------------- the registry object

  function NamesOf(bots: Lineup): set<string> {
    set k | 0 <= k < |bots| :: bots[k].name
  }

  lemma NamesSnoc(bots: Lineup, bot: BotConfig)
    ensures NamesOf(bots + [bot]) == NamesOf(bots) + {bot.name}
    ensures DistinctNames(bots + [bot]) <==> DistinctNames(bots) && bot.name !in NamesOf(bots)
  {
    var longer := bots + [bot];
    assert forall k :: 0 <= k < |bots| ==> longer[k] == bots[k];
    assert longer[|bots|] == bot;
    forall name | name in NamesOf(bots) + {bot.name} ensures name in NamesOf(longer) {
      if name in NamesOf(bots) {
        var k :| 0 <= k < |bots| && bots[k].name == name;
        assert longer[k].name == name;
      }
    }
    if DistinctNames(longer) {
      forall i, j | 0 <= i < j < |bots| ensures bots[i].name != bots[j].name { assert longer[i].name != longer[j].name; }
    }
  }

  method BuildBots(lineup: Lineup, live: Services) returns (bots: Lineup, duplicate: bool)
    ensures duplicate <==> !DistinctNames(ServableBots(lineup, live))
    ensures !duplicate ==> bots == ServableBots(lineup, live)
  {
    bots := [];
    var byUsername: set<string> := {};
    for i := 0 to |lineup|
      invariant bots == ServableBots(lineup[..i], live) && DistinctNames(bots)
      invariant byUsername == NamesOf(bots)
    {
      assert lineup[..i + 1][..i] == lineup[..i];
      if !Servable(lineup[i], live) { continue; }
      NamesSnoc(bots, lineup[i]);
      if lineup[i].name in byUsername {
        DuplicateStays(lineup, i + 1, live);
        return bots, true;
      }
      byUsername := byUsername + {lineup[i].name};
      bots := bots + [lineup[i]];
    }
    assert lineup[..|lineup|] == lineup;
    return bots, false;
  }

  lemma {:induction false} ServablePrefix(lineup: Lineup, n: nat, live: Services)
    requires n <= |lineup|
    ensures ServableBots(lineup[..n], live) <= ServableBots(lineup, live)
    decreases |lineup|
  {
    if n == |lineup| {
      assert lineup[..n] == lineup;
    } else {
      ServablePrefix(lineup[..|lineup| - 1], n, live);
      assert lineup[..|lineup| - 1][..n] == lineup[..n];
    }
  }

  lemma DuplicateStays(lineup: Lineup, n: nat, live: Services)
    requires n <= |lineup| && !DistinctNames(ServableBots(lineup[..n], live))
    ensures !DistinctNames(ServableBots(lineup, live))
  {
    ServablePrefix(lineup, n, live);
    var some, all := ServableBots(lineup[..n], live), ServableBots(lineup, live);
    var i, j :| 0 <= i < j < |some| && some[i].name == some[j].name;
    assert all[i].name == all[j].name;
  }

  predicate AnyUnsynced(bots: Lineup, o: Outcome) {
    exists cfg :: cfg in bots && cfg in o.unsynced
  }

  predicate AnyUnbuildable(bots: Lineup, o: Outcome) {
    exists cfg :: cfg in bots && cfg !in o.unsynced && cfg in o.unbuildable
  }

  lemma SyncOneMore(bots: Lineup, i: nat, o: Outcome)
    requires i < |bots|
    ensures bots[..i + 1][..i] == bots[..i]
    ensures AnyUnsynced(bots[..i + 1], o) <==> AnyUnsynced(bots[..i], o) || bots[i] in o.unsynced
    ensures AnyUnbuildable(bots[..i + 1], o) <==>
            AnyUnbuildable(bots[..i], o) || (bots[i] !in o.unsynced && bots[i] in o.unbuildable)
    ensures bots[i] !in o.unsynced && bots[i] in o.unbuildable ==> AnyUnbuildable(bots, o)
  {
    assert bots[..i + 1] == bots[..i] + [bots[i]];
  }

  method SyncBots(bots: Lineup, version: nat, o: Outcome) returns (ensured: seq<Entry>, syncFailed: bool, broken: bool)
    ensures broken <==> AnyUnbuildable(bots, o)
    ensures !broken ==> ensured == Synced(bots, o.unsynced, version) && (syncFailed <==> AnyUnsynced(bots, o))
  {
    ensured, syncFailed := [], false;
    for i := 0 to |bots|
      invariant ensured == Synced(bots[..i], o.unsynced, version)
      invariant (syncFailed <==> AnyUnsynced(bots[..i], o)) && !AnyUnbuildable(bots[..i], o)
    {
      SyncOneMore(bots, i, o);
      if bots[i] in o.unsynced {
        syncFailed := true;
        continue;
      }
      if bots[i] in o.unbuildable { return ensured, syncFailed, true; }
      ensured := ensured + [Entry(bots[i], version)];
    }
    assert bots[..|bots|] == bots;
    return ensured, syncFailed, false;
  }

  class MMBots {
    var bots: seq<Entry>
    var lastEnsuredBotCfgs: Lineup
    var lastEnsuredServiceCfgs: Services
    var forceRefresh: bool

    constructor ()
      ensures Value() == Registry([], [], map[], false)
    {
      bots, lastEnsuredBotCfgs, lastEnsuredServiceCfgs, forceRefresh := [], [], map[], false;
    }

    function Value(): Registry
      reads this
    {
      Registry(bots, lastEnsuredBotCfgs, lastEnsuredServiceCfgs, forceRefresh)
    }

    method SnapshotUnchanged(lineup: Lineup, services: Services) returns (same: bool)
      ensures same <==> Unchanged(Value(), lineup, services)
    {
      if |bots| == 0 || forceRefresh { return false; }
      same := BotConfigsEqual(lastEnsuredBotCfgs, lineup);
      if same { same := ServiceConfigsEqual(lastEnsuredServiceCfgs, services); }
    }

    method ForceRefreshOnNextEnsure()
      modifies this
      ensures Value() == Registry(old(bots), [], map[], true)
    {
      lastEnsuredBotCfgs, lastEnsuredServiceCfgs, forceRefresh := [], map[], true;
    }

    /** The rebuild of EnsureBots, once both locks are held and something changed. */
    method Rebuild(lineup: Lineup, services: Services, version: nat, o: Outcome) returns (failed: bool)
      modifies this
      ensures Value() == Rebuilt(old(Value()), lineup, services, version, o)
      ensures failed <==> Fails(lineup, o) || (!o.copied && !AnyUnsynced(ServableBots(lineup, o.live), o))
      ensures Fails(lineup, o) ==> Value() == old(Value())
      ensures !Fails(lineup, o) ==> ServesInOrder(bots, lineup, version, o)
      ensures !failed ==>
                forceRefresh == (exists cfg :: cfg in lineup && CanServe(cfg, o.live) && cfg in o.unsynced) &&
                lastEnsuredBotCfgs == (if forceRefresh then [] else lineup) &&
                lastEnsuredServiceCfgs == (if forceRefresh then map[] else services)
    {
      RebuiltServesInOrder(Value(), lineup, services, version, o);
      FailsExactly(lineup, o);
      var built, duplicate := BuildBots(lineup, o.live);
      if duplicate { return true; }
      var ensured, syncFailed, broken := SyncBots(built, version, o);
      if broken { return true; }
      bots := ensured;
      if syncFailed {
        lastEnsuredBotCfgs, lastEnsuredServiceCfgs, forceRefresh := [], map[], true;
        return false;
      }
      if !o.copied { return true; }
      lastEnsuredBotCfgs, lastEnsuredServiceCfgs, forceRefresh := lineup, services, false;
      return false;
    }

    method ReplaceAgentBot(agentId: string, bot: Option<Entry>)
      modifies this
      ensures Value() == old(Value()).(bots := Swapped(old(bots), agentId, bot), forceRefresh := true)
    {
      var next: seq<Entry> := [];
      var pending := bot;
      for i := 0 to |bots|
        invariant bots == old(bots) && lastEnsuredBotCfgs == old(lastEnsuredBotCfgs) && lastEnsuredServiceCfgs == old(lastEnsuredServiceCfgs)
        invariant next + Swapped(bots[i..], agentId, pending) == Swapped(bots, agentId, bot)
      {
        assert bots[i..][1..] == bots[i + 1..];
        if bots[i].cfg.id != agentId {
          next := next + [bots[i]];
          continue;
        }
        if pending.Some? {
          next := next + [pending.value];
          pending := None;
        }
      }
      if pending.Some? { next := next + [pending.value]; }
      bots := next;
      forceRefresh := true;
    }
  }

  // ---------------------------------------------------------------- bot accounts

  /** A Mattermost bot account. */
  datatype Account = Account(userId: string, username: string)

  predicate ByUserId(byUserId: map<string, Account>, accounts: seq<Account>) {
    && (forall id :: id in byUserId ==> byUserId[id] in accounts && byUserId[id].userId == id)
    && (forall a :: a in accounts ==> a.userId in byUserId)
  }

  predicate ByUsername(byUsername: map<string, Account>, accounts: seq<Account>) {
    && (forall name :: name in byUsername ==> byUsername[name] in accounts && byUsername[name].username == name)
    && (forall a :: a in accounts ==> a.username in byUsername)
  }

  method IndexAccounts(accounts: seq<Account>) returns (byUserId: map<string, Account>, byUsername: map<string, Account>)
    ensures ByUserId(byUserId, accounts) && ByUsername(byUsername, accounts)
  {
    byUserId, byUsername := map[], map[];
    for i := 0 to |accounts|
      invariant ByUserId(byUserId, accounts[..i])
      invariant ByUsername(byUsername, accounts[..i])
    {
      assert accounts[..i + 1] == accounts[..i] + [accounts[i]];
      OneMoreById(byUserId, accounts[..i], accounts[i]);
      OneMoreByName(byUsername, accounts[..i], accounts[i]);
      byUserId := byUserId[accounts[i].userId := accounts[i]];
      byUsername := byUsername[accounts[i].username := accounts[i]];
    }
    assert accounts[..|accounts|] == accounts;
  }

  lemma OneMoreById(byUserId: map<string, Account>, accounts: seq<Account>, a: Account)
    requires ByUserId(byUserId, accounts)
    ensures ByUserId(byUserId[a.userId := a], accounts + [a])
  {
  }

  lemma OneMoreByName(byUsername: map<string, Account>, accounts: seq<Account>, a: Account)
    requires ByUsername(byUsername, accounts)
    ensures ByUsername(byUsername[a.username := a], accounts + [a])
  {
  }

  predicate HasOwnAccount(bot: BotConfig, accounts: seq<Account>) {
    bot.botUserId != "" && exists a :: a in accounts && a.userId == bot.botUserId
  }

  /** A bot that knows its account and whose account exists keeps it, whatever its name is
      now; the others may only get an account that has their name. */
  predicate KeepsOwn(matched: map<nat, Account>, bots: Lineup, accounts: seq<Account>, n: nat)
    requires n <= |bots|
  {
    && (forall i :: i in matched ==> i < |bots| && matched[i] in accounts)
    && (forall i :: 0 <= i < n && HasOwnAccount(bots[i], accounts) ==> i in matched)
    && (forall i :: i in matched ==>
          if HasOwnAccount(bots[i], accounts) then matched[i].userId == bots[i].botUserId
          else matched[i].username == bots[i].name)
  }

  /** Two bots share an account only if both say it is theirs. */
  predicate NotShared(matched: map<nat, Account>, bots: Lineup, accounts: seq<Account>) {
    forall i, j :: i in matched && j in matched && i != j && i < |bots| && j < |bots| && matched[i].userId == matched[j].userId ==>
      HasOwnAccount(bots[i], accounts) && HasOwnAccount(bots[j], accounts)
  }

  predicate Claims(claimed: set<string>, matched: map<nat, Account>) {
    && (forall i :: i in matched ==> matched[i].userId in claimed)
    && (forall id :: id in claimed ==> exists i :: i in matched && matched[i].userId == id)
  }

  /** Pairs each bot with its account. */
  method MatchPreviousMMBots(bots: Lineup, accounts: seq<Account>) returns (matched: map<nat, Account>)
    ensures KeepsOwn(matched, bots, accounts, |bots|)
    ensures NotShared(matched, bots, accounts)
    ensures forall i :: 0 <= i < |bots| && i !in matched && NameTaken(bots[i].name, accounts) ==>
              exists j :: j in matched && IsNamed(matched[j].userId, bots[i].name, accounts)
  {
    var byUserId, byUsername := IndexAccounts(accounts);
    var claimed: set<string>;
    matched, claimed := MatchByUserId(bots, accounts, byUserId);
    matched, claimed := MatchByName(bots, accounts, byUsername, matched, claimed);
    forall i | 0 <= i < |bots| && i !in matched && NameTaken(bots[i].name, accounts)
      ensures exists j :: j in matched && IsNamed(matched[j].userId, bots[i].name, accounts)
    {
      var account := byUsername[bots[i].name];
      assert account.userId in claimed;
      assert IsNamed(account.userId, bots[i].name, accounts);
    }
  }

  predicate NameTaken(name: string, accounts: seq<Account>) {
    exists a :: a in accounts && a.username == name
  }

  predicate IsNamed(userId: string, name: string, accounts: seq<Account>) {
    exists a :: a in accounts && a.username == name && a.userId == userId
  }

  method MatchByUserId(bots: Lineup, accounts: seq<Account>, byUserId: map<string, Account>)
    returns (matched: map<nat, Account>, claimed: set<string>)
    requires ByUserId(byUserId, accounts)
    ensures KeepsOwn(matched, bots, accounts, |bots|) && Claims(claimed, matched)
    ensures forall k :: k in matched ==> k < |bots| && HasOwnAccount(bots[k], accounts)
  {
    matched, claimed := map[], {};
    for i := 0 to |bots|
      invariant KeepsOwn(matched, bots, accounts, i) && Claims(claimed, matched)
      invariant forall k :: k in matched ==> k < i && HasOwnAccount(bots[k], accounts)
    {
      if bots[i].botUserId in byUserId && bots[i].botUserId != "" {
        var account := byUserId[bots[i].botUserId];
        assert HasOwnAccount(bots[i], accounts);
        Claimed(claimed, matched, i, account);
        matched := matched[i := account];
        claimed := claimed + {account.userId};
      }
    }
  }

  method MatchByName(bots: Lineup, accounts: seq<Account>, byUsername: map<string, Account>, own: map<nat, Account>, taken: set<string>)
    returns (matched: map<nat, Account>, claimed: set<string>)
    requires ByUsername(byUsername, accounts)
    requires KeepsOwn(own, bots, accounts, |bots|) && Claims(taken, own)
    requires forall k :: k in own ==> k < |bots| && HasOwnAccount(bots[k], accounts)
    ensures KeepsOwn(matched, bots, accounts, |bots|) && Claims(claimed, matched)
    ensures NotShared(matched, bots, accounts)
    ensures Refused(byUsername, bots, matched, claimed, |bots|)
  {
    matched, claimed := own, taken;
    for i := 0 to |bots|
      invariant KeepsOwn(matched, bots, accounts, |bots|) && Claims(claimed, matched)
      invariant NotShared(matched, bots, accounts)
      invariant Refused(byUsername, bots, matched, claimed, i)
    {
      if i in matched || bots[i].name !in byUsername { continue; }
      var account := byUsername[bots[i].name];
      if account.userId in claimed { continue; }
      MatchOne(matched, claimed, bots, accounts, i, account);
      matched := matched[i := account];
      claimed := claimed + {account.userId};
    }
  }

  /** A bot goes without only when the account with its name is claimed. */
  predicate Refused(byUsername: map<string, Account>, bots: Lineup, matched: map<nat, Account>, claimed: set<string>, n: nat)
    requires n <= |bots|
  {
    forall k :: 0 <= k < n && k !in matched && bots[k].name in byUsername ==> byUsername[bots[k].name].userId in claimed
  }

  lemma MatchOne(matched: map<nat, Account>, claimed: set<string>, bots: Lineup, accounts: seq<Account>, i: nat, account: Account)
    requires KeepsOwn(matched, bots, accounts, |bots|) && Claims(claimed, matched) && NotShared(matched, bots, accounts)
    requires i < |bots| && i !in matched && account in accounts && account.username == bots[i].name && account.userId !in claimed
    ensures KeepsOwn(matched[i := account], bots, accounts, |bots|)
    ensures Claims(claimed + {account.userId}, matched[i := account])
    ensures NotShared(matched[i := account], bots, accounts)
  {
    Claimed(claimed, matched, i, account);
    OneMoreKept(matched, bots, accounts, i, account);
    OneMoreUnshared(matched, claimed, bots, accounts, i, account);
  }

  lemma OneMoreKept(matched: map<nat, Account>, bots: Lineup, accounts: seq<Account>, i: nat, account: Account)
    requires KeepsOwn(matched, bots, accounts, |bots|)
    requires i < |bots| && i !in matched && account in accounts && account.username == bots[i].name
    ensures KeepsOwn(matched[i := account], bots, accounts, |bots|)
  {
  }

  lemma OneMoreUnshared(matched: map<nat, Account>, claimed: set<string>, bots: Lineup, accounts: seq<Account>, i: nat, account: Account)
    requires NotShared(matched, bots, accounts) && Claims(claimed, matched) && account.userId !in claimed
    ensures NotShared(matched[i := account], bots, accounts)
  {
  }

  lemma Claimed(claimed: set<string>, matched: map<nat, Account>, i: nat, account: Account)
    requires Claims(claimed, matched) && i !in matched
    ensures Claims(claimed + {account.userId}, matched[i := account])
  {
    var more := matched[i := account];
    forall id | id in claimed + {account.userId} ensures exists k :: k in more && more[k].userId == id {
      if id == account.userId {
        assert more[i].userId == id;
      } else {
        var k :| k in matched && matched[k].userId == id;
        assert more[k].userId == id;
      }
    }
  }

  // ---------------------------------------------------------------- concurrent calls

  /** Where a call of EnsureBots or RefreshAgent is. From Locked on, and while refreshing, it
      holds ensureMu. */
  datatype Phase =
    | Checking(lineup: Lineup, services: Services)
    | Waiting
    | Locked
    | Rechecking(lineup: Lineup, services: Services, version: nat)
    | Building(lineup: Lineup, services: Services, version: nat)
    | Refreshing(agentId: string)
    | Rebuilding(agentId: string, version: nat)

  /** Version counts the changes to the stored agents. The rest is history: the newest
      version in use (floor), the lineup, services and live services of the last full rebuild,
      and whether that rebuild could not remember them. */
  datatype Node = Node(
    registry: Registry,
    version: nat,
    calls: map<nat, Phase>,
    holder: Option<nat>,
    floor: nat,
    builtFrom: Lineup,
    builtWith: Services,
    builtLive: Services,
    forgotten: bool)

  datatype Step =
    | ChangeAgents
    | ForceRefresh
    | StartEnsure(id: nat, lineup: Lineup, services: Services)
    | Check(id: nat)
    | Lock(id: nat)
    | Read(id: nat, lineup: Lineup, services: Services)
    | Recheck(id: nat)
    | GiveUp(id: nat)
    | Rebuild(id: nat, o: Outcome)
    | StartRefresh(id: nat, agentId: string)
    | ReadAgent(id: nat)
    | Swap(id: nat, cfg: Option<BotConfig>)

  predicate Holds(s: Node, id: nat) {
    s.holder == Some(id) && id in s.calls
  }

  predicate Enabled(s: Node, step: Step) {
    match step
    case ChangeAgents => true
    case ForceRefresh => true
    case StartEnsure(id, _, _) => id !in s.calls
    case Check(id) => id in s.calls && s.calls[id].Checking?
    case Lock(id) => id in s.calls && s.calls[id].Waiting? && s.holder.None?
    case Read(id, _, _) => Holds(s, id) && s.calls[id].Locked?
    case Recheck(id) => Holds(s, id) && s.calls[id].Rechecking?
    case GiveUp(id) => Holds(s, id) && (s.calls[id].Locked? || s.calls[id].Building?)
    case Rebuild(id, _) => Holds(s, id) && s.calls[id].Building?
    case StartRefresh(id, _) => id !in s.calls && s.holder.None?
    case ReadAgent(id) => Holds(s, id) && s.calls[id].Refreshing?
    case Swap(id, cfg) =>
      && Holds(s, id)
      && match s.calls[id] {
        case Refreshing(_) => cfg.None?
        case Rebuilding(agentId, _) => cfg.Some? ==> cfg.value.id == agentId
        case _ => false
      }
  }

  function At(s: Node, id: nat, phase: Phase): Node {
    s.(calls := s.calls[id := phase])
  }

  function Done(s: Node, id: nat): Node {
    s.(calls := s.calls - {id}, holder := if s.holder == Some(id) then None else s.holder)
  }

  /** The registry swap that ends a full rebuild. */
  function RebuildStep(s: Node, id: nat, o: Outcome): Node
    requires Enabled(s, Rebuild(id, o))
  {
    var b := s.calls[id];
    var done := Done(s, id);
    if Fails(b.lineup, o) then done
    else
      var r := Rebuilt(s.registry, b.lineup, b.services, b.version, o);
      done.(registry := r, floor := b.version, builtFrom := b.lineup, builtWith := b.services, builtLive := o.live,
            forgotten := !o.copied && !r.forceRefresh)
  }

  function SwapStep(s: Node, id: nat, cfg: Option<BotConfig>): Node
    requires Enabled(s, Swap(id, cfg))
  {
    var agentId := s.calls[id].agentId;
    var entry := if cfg.Some? then Some(Entry(cfg.value, s.calls[id].version)) else None;
    Done(s, id).(registry := s.registry.(bots := Swapped(s.registry.bots, agentId, entry), forceRefresh := true),
                 floor := if s.calls[id].Rebuilding? then s.calls[id].version else s.floor)
  }

  function Apply(s: Node, step: Step): Node
    requires Enabled(s, step)
  {
    match step
    case ChangeAgents => s.(version := s.version + 1)
    case ForceRefresh => s.(registry := Registry(s.registry.bots, [], map[], true))
    case StartEnsure(id, lineup, services) => At(s, id, Checking(lineup, services))
    case Check(id) =>
      if Unchanged(s.registry, s.calls[id].lineup, s.calls[id].services) then Done(s, id) else At(s, id, Waiting)
    case Lock(id) => At(s, id, Locked).(holder := Some(id))
    case Read(id, lineup, services) => At(s, id, Rechecking(lineup, services, s.version))
    case Recheck(id) =>
      var c := s.calls[id];
      if Unchanged(s.registry, c.lineup, c.services) then Done(s, id)
      else At(s, id, Building(c.lineup, c.services, c.version))
    case GiveUp(id) => Done(s, id)
    case Rebuild(id, o) => RebuildStep(s, id, o)
    case StartRefresh(id, agentId) => At(s, id, Refreshing(agentId)).(holder := Some(id))
    case ReadAgent(id) => At(s, id, Rebuilding(s.calls[id].agentId, s.version))
    case Swap(id, cfg) => SwapStep(s, id, cfg)
  }

  predicate Reaches(s: Node, steps: seq<Step>, t: Node)
    decreases |steps|
  {
    if steps == [] then t == s
    else Enabled(s, steps[0]) && Reaches(Apply(s, steps[0]), steps[1..], t)
  }

  const IDLE := Node(Registry([], [], map[], false), 0, map[], None, 0, [], map[], map[], false)

  // ---------------------------------------------------------------- what every step keeps

  function VersionRead(p: Phase): Option<nat> {
    if p.Rechecking? || p.Building? || p.Rebuilding? then Some(p.version) else None
  }

  /** Entries of one agent were built from the same version. */
  predicate OneVersionEach(bots: seq<Entry>) {
    forall e, f :: e in bots && f in bots && e.cfg.id == f.cfg.id ==> e.version == f.version
  }

  /** Entries are no newer than what the current holder has read, which is no newer than
      the store. */
  predicate VersionsOrdered(s: Node) {
    && s.floor <= s.version
    && OneVersionEach(s.registry.bots)
    && (forall e :: e in s.registry.bots ==> e.version <= s.floor)
    && (forall id :: id in s.calls && VersionRead(s.calls[id]).Some? ==>
          s.holder == Some(id) && s.floor <= VersionRead(s.calls[id]).value <= s.version)
  }

  function Served(r: Registry): set<BotConfig> {
    set e | e in r.bots :: e.cfg
  }

  /** The configurations of a lineup that can be served with these services. */
  function Due(lineup: Lineup, live: Services): set<BotConfig> {
    set cfg | cfg in lineup && Servable(cfg, live)
  }

  lemma RebuildServesWhatIsDue(r: Registry, lineup: Lineup, services: Services, version: nat, o: Outcome)
    requires !Fails(lineup, o) && !Rebuilt(r, lineup, services, version, o).forceRefresh
    ensures Served(Rebuilt(r, lineup, services, version, o)) == Due(lineup, o.live)
  {
    var bots := ServableBots(lineup, o.live);
    var entries := Synced(bots, o.unsynced, version);
    forall cfg | cfg in Due(lineup, o.live) ensures exists e :: e in entries && e.cfg == cfg {
      assert Entry(cfg, version) in entries;
    }
  }

  /** Unless a refresh is forced, the remembered lineup is the one the registry was rebuilt
      from, and the registry still serves exactly what could be served of it. */
  predicate Remembered(s: Node) {
    !s.registry.forceRefresh ==>
      && (s.forgotten || (s.registry.lastBots == s.builtFrom && s.registry.lastServices == s.builtWith))
      && Served(s.registry) == Due(s.builtFrom, s.builtLive)
  }

  predicate Invariant(s: Node) {
    VersionsOrdered(s) && Remembered(s)
  }

  lemma RebuildKeepsInvariant(s: Node, id: nat, o: Outcome)
    requires Invariant(s) && Enabled(s, Rebuild(id, o))
    ensures Invariant(RebuildStep(s, id, o))
  {
    assert VersionRead(s.calls[id]).Some?;
    var b := s.calls[id];
    if !Fails(b.lineup, o) && !Rebuilt(s.registry, b.lineup, b.services, b.version, o).forceRefresh {
      RebuildServesWhatIsDue(s.registry, b.lineup, b.services, b.version, o);
    }
  }

  lemma SwapKeepsInvariant(s: Node, id: nat, cfg: Option<BotConfig>)
    requires Invariant(s) && Enabled(s, Swap(id, cfg))
    ensures Invariant(SwapStep(s, id, cfg))
  {
    var agentId := s.calls[id].agentId;
    var entry := if cfg.Some? then Some(Entry(cfg.value, s.calls[id].version)) else None;
    SwapReplacesOne(s.registry.bots, agentId, entry);
    assert s.calls[id].Rebuilding? ==> VersionRead(s.calls[id]).Some?;
  }

  lemma StepKeepsInvariant(s: Node, step: Step)
    requires Invariant(s) && Enabled(s, step)
    ensures Invariant(Apply(s, step))
  {
    match step
    case Rebuild(id, o) => RebuildKeepsInvariant(s, id, o);
    case Swap(id, cfg) => SwapKeepsInvariant(s, id, cfg);
    case _ =>
      MoveKeepsVersions(s, step);
      MoveKeepsMemory(s, step);
  }

  lemma MoveKeepsVersions(s: Node, step: Step)
    requires VersionsOrdered(s) && Enabled(s, step) && !step.Rebuild? && !step.Swap?
    ensures VersionsOrdered(Apply(s, step))
  {
    match step
    case ChangeAgents =>
    case ForceRefresh =>
    case StartEnsure(id, lineup, services) => PhaseKeepsVersions(s, id, Checking(lineup, services));
    case Check(id) =>
      PhaseKeepsVersions(s, id, Waiting);
      DoneKeepsVersions(s, id);
    case Lock(id) => LockKeepsVersions(s, id, Locked);
    case Read(id, lineup, services) => PhaseKeepsVersions(s, id, Rechecking(lineup, services, s.version));
    case Recheck(id) =>
      var c := s.calls[id];
      assert VersionRead(c).Some?;
      PhaseKeepsVersions(s, id, Building(c.lineup, c.services, c.version));
      DoneKeepsVersions(s, id);
    case GiveUp(id) => DoneKeepsVersions(s, id);
    case StartRefresh(id, agentId) => LockKeepsVersions(s, id, Refreshing(agentId));
    case ReadAgent(id) => PhaseKeepsVersions(s, id, Rebuilding(s.calls[id].agentId, s.version));
  }

  lemma PhaseKeepsVersions(s: Node, id: nat, phase: Phase)
    requires VersionsOrdered(s)
    requires VersionRead(phase).Some? ==> s.holder == Some(id) && s.floor <= VersionRead(phase).value <= s.version
    ensures VersionsOrdered(At(s, id, phase))
  {
  }

  lemma LockKeepsVersions(s: Node, id: nat, phase: Phase)
    requires VersionsOrdered(s) && s.holder.None? && VersionRead(phase).None?
    ensures VersionsOrdered(At(s, id, phase).(holder := Some(id)))
  {
  }

  lemma DoneKeepsVersions(s: Node, id: nat)
    requires VersionsOrdered(s)
    ensures VersionsOrdered(Done(s, id))
  {
  }

  lemma MoveKeepsMemory(s: Node, step: Step)
    requires Remembered(s) && Enabled(s, step) && !step.Rebuild? && !step.Swap?
    ensures Remembered(Apply(s, step))
  {
  }

  lemma {:induction false} RunKeepsInvariant(s: Node, steps: seq<Step>, t: Node)
    requires Invariant(s) && Reaches(s, steps, t)
    ensures Invariant(t)
    decreases |steps|
  {
    if steps != [] {
      StepKeepsInvariant(s, steps[0]);
      RunKeepsInvariant(Apply(s, steps[0]), steps[1..], t);
    }
  }

  // ---------------------------------------------------------------- stale writes

  /** The agent's entry, now and whenever it comes back, is at least this new. */
  predicate AtLeast(s: Node, agentId: string, version: nat) {
    version <= s.floor && forall e :: e in s.registry.bots && e.cfg.id == agentId ==> version <= e.version
  }

  lemma StepIsNotStale(s: Node, step: Step, agentId: string, version: nat)
    requires Invariant(s) && Enabled(s, step) && AtLeast(s, agentId, version)
    ensures AtLeast(Apply(s, step), agentId, version)
  {
    match step
    case Rebuild(id, o) => assert VersionRead(s.calls[id]).Some?;
    case Swap(id, cfg) =>
      assert s.calls[id].Rebuilding? ==> VersionRead(s.calls[id]).Some?;
      var entry := if cfg.Some? then Some(Entry(cfg.value, s.calls[id].version)) else None;
      SwapReplacesOne(s.registry.bots, s.calls[id].agentId, entry);
    case _ =>
  }

  lemma {:induction false} RunIsNotStale(s: Node, steps: seq<Step>, t: Node, agentId: string, version: nat)
    requires Invariant(s) && AtLeast(s, agentId, version) && Reaches(s, steps, t)
    ensures AtLeast(t, agentId, version)
    decreases |steps|
  {
    if steps != [] {
      StepKeepsInvariant(s, steps[0]);
      StepIsNotStale(s, steps[0], agentId, version);
      RunIsNotStale(Apply(s, steps[0]), steps[1..], t, agentId, version);
    }
  }

  /** In every interleaving, an agent's entry is never replaced by one built from older
      stored agents, even when it was removed in between. */
  lemma NoStaleEntry(before: seq<Step>, s: Node, steps: seq<Step>, t: Node, earlier: Entry, later: Entry)
    requires Reaches(IDLE, before, s) && Reaches(s, steps, t)
    requires earlier in s.registry.bots && later in t.registry.bots && earlier.cfg.id == later.cfg.id
    ensures earlier.version <= later.version
  {
    RunKeepsInvariant(IDLE, before, s);
    RunIsNotStale(s, steps, t, earlier.cfg.id, earlier.version);
  }

  // ---------------------------------------------------------------- forced refreshes

  /** A rebuild of this lineup can end with bots in the registry and nothing to retry. */
  ghost predicate CanSucceed(lineup: Lineup) {
    exists live: Services :: ServableBots(lineup, live) != [] && DistinctNames(ServableBots(lineup, live))
  }

  /** A call holds the lock, has read what it builds from, and can succeed. */
  ghost predicate RebuildUnderWay(s: Node) {
    exists id :: id in s.calls && UnderWay(s, id)
  }

  predicate HasRead(p: Phase) {
    p.Rechecking? || p.Building?
  }

  ghost predicate UnderWay(s: Node, id: nat)
    requires id in s.calls
  {
    HasRead(s.calls[id]) && Holds(s, id) && CanSucceed(s.calls[id].lineup)
  }

  /** No check can skip, whatever it reads. */
  predicate CannotSkip(r: Registry) {
    r.forceRefresh || r.bots == []
  }

  /** What lasts until a call reads its lineup under the lock. */
  ghost predicate Forced(s: Node) {
    CannotSkip(s.registry) && !RebuildUnderWay(s)
  }

  lemma RebuildKeepsForced(s: Node, id: nat, o: Outcome)
    requires Forced(s) && Enabled(s, Rebuild(id, o))
    ensures CannotSkip(RebuildStep(s, id, o).registry)
  {
    var lineup := s.calls[id].lineup;
    var bots := ServableBots(lineup, o.live);
    assert bots != [] && DistinctNames(bots) ==> CanSucceed(lineup);
  }

  lemma StepKeepsForced(s: Node, step: Step)
    requires Forced(s) && Enabled(s, step) && !step.Read?
    ensures Forced(Apply(s, step))
  {
    if step.Rebuild? { RebuildKeepsForced(s, step.id, step.o); }
    var t := Apply(s, step);
    assert forall id :: id in t.calls && UnderWay(t, id) ==> id in s.calls && UnderWay(s, id);
  }

  /** Only a rebuild lets a check skip again. */
  lemma {:induction false} WithoutRebuildNoSkip(s: Node, steps: seq<Step>, t: Node)
    requires CannotSkip(s.registry) && Reaches(s, steps, t)
    requires forall j :: 0 <= j < |steps| ==> !steps[j].Rebuild?
    ensures CannotSkip(t.registry)
    decreases |steps|
  {
    if steps != [] {
      assert !steps[0].Rebuild?;
      MoveKeepsForce(s, steps[0]);
      WithoutRebuildNoSkip(Apply(s, steps[0]), steps[1..], t);
    }
  }

  lemma MoveKeepsForce(s: Node, step: Step)
    requires CannotSkip(s.registry) && Enabled(s, step) && !step.Rebuild?
    ensures CannotSkip(Apply(s, step).registry)
  {
  }

  /** A rebuild from a lineup that was read in this run: it comes after a reading under the
      lock, and the lock lets no older reading be built after a newer one. */
  predicate RebuildsAfterReading(steps: seq<Step>) {
    exists j, k :: 0 <= j < k < |steps| && steps[j].Read? && steps[k].Rebuild?
  }

  lemma {:induction false} RunKeepsForced(s: Node, steps: seq<Step>, t: Node)
    requires Forced(s) && Reaches(s, steps, t) && !RebuildsAfterReading(steps)
    ensures CannotSkip(t.registry)
    decreases |steps|
  {
    if steps != [] {
      assert forall j :: 0 <= j < |steps| - 1 ==> steps[1..][j] == steps[j + 1];
      if steps[0].Read? {
        WithoutRebuildNoSkip(Apply(s, steps[0]), steps[1..], t);
      } else {
        StepKeepsForced(s, steps[0]);
        RunKeepsForced(Apply(s, steps[0]), steps[1..], t);
      }
    }
  }

  /** If no call that can succeed has read its lineup under the lock when a refresh is forced,
      no check of EnsureBots skips afterwards until a lineup that was read after the force has
      been rebuilt. */
  lemma ForcedRefreshHolds(s: Node, steps: seq<Step>, t: Node, lineup: Lineup, services: Services)
    requires !RebuildUnderWay(s) && Reaches(Apply(s, ForceRefresh), steps, t) && !RebuildsAfterReading(steps)
    ensures !Unchanged(t.registry, lineup, services)
  {
    var u := Apply(s, ForceRefresh);
    assert forall id :: id in u.calls && UnderWay(u, id) ==> UnderWay(s, id);
    RunKeepsForced(u, steps, t);
  }

  /** What compares equal to a remembered lineup. */
  function Likeness(lineup: Lineup): (same: Lineup) {
    seq(|lineup|, i requires 0 <= i < |lineup| => ByID(lineup)[lineup[i].id])
  }

  lemma LikenessIsEqual(lineup: Lineup)
    ensures ConfigsEqual(lineup, Likeness(lineup))
    ensures UniqueIds(lineup) ==> Likeness(lineup) == lineup
  {
    if UniqueIds(lineup) {
      forall i | 0 <= i < |lineup| ensures Likeness(lineup)[i] == lineup[i] {
        OneById(lineup, lineup[i], ByID(lineup)[lineup[i].id]);
      }
    }
  }

  /** If one has, the refresh can be lost: that call goes on, clears the force and remembers the
      lineup it had read before, so that a check of it skips. */
  lemma ForcedRefreshIsLost(s: Node, id: nat) returns (steps: seq<Step>, t: Node)
    requires id in s.calls && UnderWay(s, id)
    ensures Reaches(Apply(s, ForceRefresh), steps, t) && forall step :: step in steps ==> !step.Read?
    ensures Unchanged(t.registry, Likeness(s.calls[id].lineup), s.calls[id].services)
  {
    var c := s.calls[id];
    var live: Services :| ServableBots(c.lineup, live) != [] && DistinctNames(ServableBots(c.lineup, live));
    var o := Outcome(live, {}, {}, true);
    var u := Apply(s, ForceRefresh);
    if c.Rechecking? {
      var v := Apply(u, Recheck(id));
      t := RebuildRemembers(v, id, o);
      steps := [Recheck(id)] + [Rebuild(id, o)];
      assert steps[1..] == [Rebuild(id, o)];
    } else {
      t := RebuildRemembers(u, id, o);
      steps := [Rebuild(id, o)];
    }
  }

  lemma RebuildRemembers(s: Node, id: nat, o: Outcome) returns (t: Node)
    requires Enabled(s, Rebuild(id, o)) && o.unsynced == {} && o.unbuildable == {} && o.copied
    requires ServableBots(s.calls[id].lineup, o.live) != [] && DistinctNames(ServableBots(s.calls[id].lineup, o.live))
    ensures Reaches(s, [Rebuild(id, o)], t)
    ensures Unchanged(t.registry, Likeness(s.calls[id].lineup), s.calls[id].services)
  {
    var c := s.calls[id];
    t := Apply(s, Rebuild(id, o));
    assert [Rebuild(id, o)][1..] == [] && Reaches(t, [], t);
    SuccessRemembers(s.registry, c.lineup, c.services, c.version, o);
    LikenessIsEqual(c.lineup);
  }

  lemma SuccessRemembers(r: Registry, lineup: Lineup, services: Services, version: nat, o: Outcome)
    requires o.unsynced == {} && o.unbuildable == {} && o.copied
    requires ServableBots(lineup, o.live) != [] && DistinctNames(ServableBots(lineup, o.live))
    ensures !Fails(lineup, o)
    ensures var r' := Rebuilt(r, lineup, services, version, o);
            r'.bots != [] && !r'.forceRefresh && r'.lastBots == lineup && r'.lastServices == services
  {
    var bots := ServableBots(lineup, o.live);
    assert bots[0] in bots;
    assert Entry(bots[0], version) in Synced(bots, {}, version);
  }

  /** After forcing a refresh and these steps, in which no lineup that was read after the force
      has been rebuilt, a check that reads this lineup skips. */
  predicate SkipsOver(s: Node, steps: seq<Step>, t: Node, lineup: Lineup, services: Services) {
    Reaches(Apply(s, ForceRefresh), steps, t) && !RebuildsAfterReading(steps) && Unchanged(t.registry, lineup, services)
  }

  /** The exact condition: a forced refresh can be skipped over if and only if a call that can
      succeed had read its lineup under the lock when it was forced. */
  lemma ForcedRefreshIsLostExactly(s: Node)
    ensures RebuildUnderWay(s) <==>
            exists steps: seq<Step>, t: Node, lineup: Lineup, services: Services ::
              SkipsOver(s, steps, t, lineup, services)
  {
    if RebuildUnderWay(s) {
      var id :| id in s.calls && UnderWay(s, id);
      var steps, t := ForcedRefreshIsLost(s, id);
      assert SkipsOver(s, steps, t, Likeness(s.calls[id].lineup), s.calls[id].services);
    } else {
      forall steps, t, lineup, services ensures !SkipsOver(s, steps, t, lineup, services) {
        if SkipsOver(s, steps, t, lineup, services) { ForcedRefreshHolds(s, steps, t, lineup, services); }
      }
    }
  }

  /** A first call that reads this lineup under the lock, and may compare it. */
  function FirstSteps(lineup: Lineup, services: Services, compared: bool): seq<Step> {
    [StartEnsure(0, lineup, services)] + ([Check(0)] + ([Lock(0)] + ([Read(0, lineup, services)] + if compared then [Recheck(0)] else [])))
  }

  /** It happens: a first call reads its lineup under the lock, a refresh is forced before or
      after it compares, and the check after its rebuild skips. */
  lemma LateForceIsLost(lineup: Lineup, services: Services, compared: bool) returns (s: Node, steps: seq<Step>, t: Node)
    requires CanSucceed(lineup) && UniqueIds(lineup)
    ensures Reaches(IDLE, FirstSteps(lineup, services, compared), s) && SkipsOver(s, steps, t, lineup, services)
  {
    var read := Rechecking(lineup, services, 0);
    var a := At(IDLE, 0, Checking(lineup, services));
    var b := At(a, 0, Waiting);
    var c := At(b, 0, Locked).(holder := Some(0));
    var d := At(c, 0, read);
    s := if compared then At(d, 0, Building(lineup, services, 0)) else d;
    if compared { ReachesFirst(d, Recheck(0), [], s); }
    ReachesFirst(c, Read(0, lineup, services), if compared then [Recheck(0)] else [], s);
    ReachesFirst(b, Lock(0), [Read(0, lineup, services)] + if compared then [Recheck(0)] else [], s);
    ReachesFirst(a, Check(0), [Lock(0)] + ([Read(0, lineup, services)] + if compared then [Recheck(0)] else []), s);
    ReachesFirst(IDLE, StartEnsure(0, lineup, services),
                 [Check(0)] + ([Lock(0)] + ([Read(0, lineup, services)] + if compared then [Recheck(0)] else [])), s);
    steps, t := ForcedRefreshIsLost(s, 0);
    LikenessIsEqual(lineup);
  }

  lemma ReachesFirst(s: Node, step: Step, rest: seq<Step>, t: Node)
    requires Enabled(s, step) && Reaches(Apply(s, step), rest, t)
    ensures Reaches(s, [step] + rest, t)
  {
    assert ([step] + rest)[1..] == rest;
  }

  // ---------------------------------------------------------------- skipping

  /** In every interleaving, EnsureBots skips only when what it has just read is, by ID, what
      the registry was last rebuilt from, and the registry serves exactly that part of it
      that could be served. The exception is a registry whose lineup could not be copied. */
  lemma SkipIsSafe(steps: seq<Step>, s: Node, lineup: Lineup, services: Services)
    requires Reaches(IDLE, steps, s) && UniqueIds(lineup) && Unchanged(s.registry, lineup, services)
    ensures s.forgotten || (
              && (forall cfg :: cfg in lineup <==> cfg in s.builtFrom)
              && services == s.builtWith
              && Served(s.registry) == Due(lineup, s.builtLive))
  {
    RunKeepsInvariant(IDLE, steps, s);
    EqualMeansSameConfigs(s.registry.lastBots, lineup);
  }

  /** Skipping is right for what the registry was last rebuilt from. */
  ghost predicate RightToSkip(s: Node, lineup: Lineup, services: Services) {
    (forall cfg :: cfg in lineup <==> cfg in s.builtFrom) && services == s.builtWith
  }

  /** The exact condition: a skip is wrong exactly when the lineup of the last rebuild could not
      be copied and is not, by ID and with its services, the remembered one. */
  lemma SkipIsWrongExactly(steps: seq<Step>, s: Node, lineup: Lineup, services: Services)
    requires Reaches(IDLE, steps, s) && UniqueIds(lineup) && Unchanged(s.registry, lineup, services)
    ensures !RightToSkip(s, lineup, services) <==>
            s.forgotten && !RightToSkip(s, s.registry.lastBots, s.registry.lastServices)
    ensures Served(s.registry) == Due(s.builtFrom, s.builtLive)
  {
    RunKeepsInvariant(IDLE, steps, s);
    EqualMeansSameConfigs(s.registry.lastBots, lineup);
  }

  /** After a rebuild that could not copy its lineup, the registry is new and the remembered
      lineup is not: reading the old lineup again skips, with the new bots still served. */
  lemma FailedCopyHidesTheRebuild(s: Node, id: nat, o: Outcome, lineup: Lineup, services: Services)
    requires Enabled(s, Rebuild(id, o)) && !s.registry.forceRefresh
    requires ConfigsEqual(s.registry.lastBots, lineup) && s.registry.lastServices == services
    requires var b := s.calls[id];
             && !Fails(b.lineup, o) && !o.copied
             && (forall cfg :: cfg in Due(b.lineup, o.live) ==> cfg !in o.unsynced)
             && Due(b.lineup, o.live) != {}
    ensures var t := Apply(s, Rebuild(id, o));
            && t.forgotten
            && Unchanged(t.registry, lineup, services)
            && Served(t.registry) == Due(s.calls[id].lineup, o.live)
  {
    var b := s.calls[id];
    RebuildServesWhatIsDue(s.registry, b.lineup, b.services, b.version, o);
    var cfg :| cfg in Due(b.lineup, o.live);
    assert Entry(cfg, b.version) in Synced(ServableBots(b.lineup, o.live), o.unsynced, b.version);
  }
}
