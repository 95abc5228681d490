/**
 Migrations of old configurations (config/legacy_migrations.go): old services become services
 with bots, and services embedded in bots become services that the bots refer to.

 A Go map is read in any order, so the migrations choose freely among identical services and
 list the services in any order. New IDs come in as a supply that is not in use.
 */
module LegacyMigrations {
  import opened Wrappers
  import opened LLMServices

  /** Other stands for the settings that the migrations carry along. */
  datatype Bot = Bot(id: string, name: string, displayName: string, serviceId: string, service: Option<ServiceConfig>,
                     dynamicToolLoading: bool, other: string)

  datatype Config = Config(services: seq<ServiceConfig>, bots: seq<Bot>, other: string)

  datatype LegacyService = LegacyService(
    name: string, serviceName: string, defaultModel: string, orgId: string, url: string, apiKey: string, tokenLimit: int,
    settingsOk: bool)

  predicate UniqueBotIds(bots: seq<Bot>) {
    forall i, j :: 0 <= i < j < |bots| ==> bots[i].id != bots[j].id
  }

  /** IDs to give out: new, different and not blank. */
  predicate Unused(ids: seq<string>, services: seq<ServiceConfig>) {
    && (forall i :: 0 <= i < |ids| ==> ids[i] != "")
    && (forall i, j :: 0 <= i < j < |ids| ==> ids[i] != ids[j])
    && (forall i, j :: 0 <= i < |ids| && 0 <= j < |services| ==> ids[i] != services[j].id)
  }

  // ---------------------------------------------------------------- identical services

  predicate Identical(a: ServiceConfig, b: ServiceConfig) {
    && a.kind == b.kind
    && a.apiKey == b.apiKey
    && a.orgId == b.orgId
    && a.defaultModel == b.defaultModel
    && a.apiUrl == b.apiUrl
    && a.inputTokenLimit == b.inputTokenLimit
    && a.streamingTimeoutSeconds == b.streamingTimeoutSeconds
    && a.outputTokenLimit == b.outputTokenLimit
    && a.useResponsesApi == b.useResponsesApi
  }

  /** Same service up to its ID and its label. */
  predicate SameSettings(a: ServiceConfig, b: ServiceConfig) {
    a.(id := b.id, name := b.name) == b
  }

  /** Identical services may still differ: their regions, fallbacks and remaining provider
      settings are not compared. What that does to a bot is below. */
  lemma IdenticalMissesSettings(a: ServiceConfig, b: ServiceConfig)
    ensures SameSettings(a, b) <==>
            && Identical(a, b)
            && a.region == b.region && a.fallbackServiceId == b.fallbackServiceId
            && a.other == b.other && a.settingsOk == b.settingsOk
    ensures Identical(a, a.(region := b.region, fallbackServiceId := b.fallbackServiceId, other := b.other, settingsOk := b.settingsOk))
  {
  }

  /** Any identical service may be found; one whose ID is blank counts as none. */
  method FindIdenticalService(services: Services, service: ServiceConfig) returns (id: string)
    ensures id != "" ==> id in services && Identical(services[id], service)
    ensures id == "" && "" !in services ==> forall k :: k in services ==> !Identical(services[k], service)
  {
    var left := services.Keys;
    while left != {}
      invariant left <= services.Keys
      invariant forall k :: k in services && k !in left ==> !Identical(services[k], service)
      decreases left
    {
      var k :| k in left;
      if Identical(services[k], service) { return k; }
      left := left - {k};
    }
    return "";
  }

  // ---------------------------------------------------------------- services out of bots

  predicate Embeds(bot: Bot) {
    bot.service.Some? && bot.service.value.kind != "" && bot.serviceId == ""
  }

  predicate NeedsSeparation(bots: seq<Bot>) {
    exists i :: 0 <= i < |bots| && Embeds(bots[i])
  }

  function LastById(services: seq<ServiceConfig>): (m: Services)
    ensures forall id :: id in m ==> m[id] in services && m[id].id == id
    ensures forall s :: s in services ==> s.id in m
  {
    if services == [] then map[]
    else
      var last := services[|services| - 1];
      assert services == services[..|services| - 1] + [last];
      LastById(services[..|services| - 1])[last.id := last]
  }

  /** The entries of a service map, in some order. */
  method ServiceList(services: Services) returns (list: seq<ServiceConfig>)
    requires forall id :: id in services ==> services[id].id == id
    ensures DistinctIds(list)
    ensures forall s :: s in list <==> s.id in services && services[s.id] == s
  {
    list := [];
    var left := services.Keys;
    while left != {}
      invariant left <= services.Keys
      invariant DistinctIds(list)
      invariant forall s :: s in list <==> s.id in services && s.id !in left && services[s.id] == s
      decreases left
    {
      var id :| id in left;
      list := list + [services[id]];
      left := left - {id};
    }
  }

  /** Where the service of a bot can be found, when no other bot has its ID. */
  predicate Placed(bot: Bot, mapping: map<string, string>, services: Services) {
    && (bot.serviceId != "" ==> bot.id in mapping && mapping[bot.id] == bot.serviceId)
    && (Embeds(bot) ==>
          && bot.id in mapping && mapping[bot.id] in services
          && Identical(services[mapping[bot.id]], bot.service.value))
    && (bot.serviceId == "" && !Embeds(bot) ==> bot.id !in mapping)
  }

  /** The service was embedded in one of these bots, and got the ID meant for it. */
  predicate TakenOut(service: ServiceConfig, bots: seq<Bot>, ids: seq<string>) {
    exists i :: 0 <= i < |bots| && i < |ids| && Embeds(bots[i]) && service == bots[i].service.value.(id := ids[i])
  }

  /** Bot i embeds a service, and no earlier bot an identical one. */
  predicate FirstAlike(bots: seq<Bot>, i: nat)
    requires i < |bots|
  {
    && Embeds(bots[i])
    && forall j :: 0 <= j < i && Embeds(bots[j]) ==> !Identical(bots[j].service.value, bots[i].service.value)
  }

  /** The service was embedded in the first bot with such a service. */
  predicate TakenFirst(service: ServiceConfig, bots: seq<Bot>, ids: seq<string>) {
    exists i :: 0 <= i < |bots| && i < |ids| && FirstAlike(bots, i) && service == bots[i].service.value.(id := ids[i])
  }

  predicate HasIdentical(services: Services, service: ServiceConfig) {
    exists id :: id in services && Identical(services[id], service)
  }

  predicate AllHaveIdentical(services: Services, bots: seq<Bot>) {
    forall i :: 0 <= i < |bots| && Embeds(bots[i]) ==> HasIdentical(services, bots[i].service.value)
  }

  /** No other service with an ID is identical to this one. */
  predicate Unlike(services: Services, service: ServiceConfig) {
    forall k :: k in services && k != service.id ==> !Identical(services[k], service)
  }

  /** The old services and, beside them, services taken out of bots. */
  predicate Extends(services: Services, before': Services, bots: seq<Bot>, ids: seq<string>) {
    && (forall id :: id in before' ==> id in services && services[id] == before'[id])
    && (forall id :: id in services ==> services[id].id == id)
    && (forall id :: id in services && id !in before' ==>
          && TakenOut(services[id], bots, ids)
          && ("" !in before' ==> Unlike(services, services[id]) && TakenFirst(services[id], bots, ids)))
    && AllHaveIdentical(services, bots)
  }

  lemma TakenOutStays(service: ServiceConfig, bots: seq<Bot>, ids: seq<string>, n: nat)
    requires n < |bots| && TakenOut(service, bots[..n], ids)
    ensures TakenOut(service, bots[..n + 1], ids)
  {
    var i :| 0 <= i < n && i < |ids| && Embeds(bots[..n][i]) && service == bots[..n][i].service.value.(id := ids[i]);
    assert bots[..n + 1][i] == bots[..n][i];
  }

  lemma TakenFirstStays(service: ServiceConfig, bots: seq<Bot>, ids: seq<string>, n: nat)
    requires n < |bots| && TakenFirst(service, bots[..n], ids)
    ensures TakenFirst(service, bots[..n + 1], ids)
  {
    var i :| 0 <= i < n && i < |ids| && FirstAlike(bots[..n], i) && service == bots[..n][i].service.value.(id := ids[i]);
    assert forall j :: 0 <= j <= i ==> bots[..n + 1][j] == bots[..n][j];
    assert FirstAlike(bots[..n + 1], i);
  }

  lemma NewIdIsUnused(services: Services, before: Services, bots: seq<Bot>, ids: seq<string>, n: nat)
    requires |bots| <= n < |ids| && Extends(services, before, bots, ids)
    requires forall i, j :: 0 <= i < j < |ids| ==> ids[i] != ids[j]
    requires forall i :: 0 <= i < |ids| ==> ids[i] !in before
    ensures ids[n] !in services
  {
  }

  lemma ExtendsStays(services: Services, before: Services, bots: seq<Bot>, ids: seq<string>, n: nat)
    requires n < |bots| && Extends(services, before, bots[..n], ids)
    requires Embeds(bots[n]) ==> HasIdentical(services, bots[n].service.value)
    ensures Extends(services, before, bots[..n + 1], ids)
  {
    forall id | id in services && id !in before
      ensures TakenOut(services[id], bots[..n + 1], ids) && ("" !in before ==> TakenFirst(services[id], bots[..n + 1], ids))
    {
      TakenOutStays(services[id], bots, ids, n);
      if "" !in before { TakenFirstStays(services[id], bots, ids, n); }
    }
    StillIdentical(services, services, bots, n);
  }

  lemma StillIdentical(services: Services, more: Services, bots: seq<Bot>, n: nat)
    requires n < |bots| && AllHaveIdentical(services, bots[..n])
    requires forall k :: k in services ==> k in more && more[k] == services[k]
    requires Embeds(bots[n]) ==> HasIdentical(more, bots[n].service.value)
    ensures AllHaveIdentical(more, bots[..n + 1])
  {
    forall i | 0 <= i < n && Embeds(bots[i]) ensures HasIdentical(more, bots[i].service.value) {
      assert bots[..n][i] == bots[i];
      var k :| k in services && Identical(services[k], bots[i].service.value);
      assert k in more && Identical(more[k], bots[i].service.value);
    }
  }

  /** No earlier bot embeds an identical service, or one would be stored. */
  lemma IsFirstAlike(services: Services, bots: seq<Bot>, n: nat)
    requires n < |bots| && Embeds(bots[n]) && !HasIdentical(services, bots[n].service.value)
    requires AllHaveIdentical(services, bots[..n])
    ensures FirstAlike(bots[..n + 1], n)
  {
    forall j | 0 <= j < n && Embeds(bots[j]) ensures !Identical(bots[j].service.value, bots[n].service.value) {
      assert bots[..n][j] == bots[j];
      var k :| k in services && Identical(services[k], bots[j].service.value);
      assert !Identical(services[k], bots[n].service.value);
    }
  }

  lemma ExtendsByOne(services: Services, before: Services, bots: seq<Bot>, ids: seq<string>, n: nat, added: ServiceConfig)
    requires n < |bots| == |ids| && Extends(services, before, bots[..n], ids)
    requires Embeds(bots[n]) && added == bots[n].service.value.(id := ids[n]) && ids[n] !in services
    requires "" !in services ==> !HasIdentical(services, bots[n].service.value)
    requires forall i :: 0 <= i < |ids| ==> ids[i] != ""
    ensures Extends(services[ids[n] := added], before, bots[..n + 1], ids)
  {
    var more := services[ids[n] := added];
    assert bots[..n + 1][n] == bots[n];
    assert TakenOut(added, bots[..n + 1], ids);
    forall id | id in more && id !in before ensures TakenOut(more[id], bots[..n + 1], ids) {
      if id != ids[n] { TakenOutStays(services[id], bots, ids, n); }
    }
    if "" !in before {
      StayUnlike(services, before, bots[..n], ids, ids[n], added);
      StayFirst(services, before, bots, ids, n, added);
    }
    assert Identical(more[ids[n]], bots[n].service.value);
    StillIdentical(services, more, bots, n);
  }

  lemma StayFirst(services: Services, before: Services, bots: seq<Bot>, ids: seq<string>, n: nat, added: ServiceConfig)
    requires n < |bots| == |ids| && Extends(services, before, bots[..n], ids) && "" !in before
    requires Embeds(bots[n]) && added == bots[n].service.value.(id := ids[n])
    requires "" !in services ==> !HasIdentical(services, bots[n].service.value)
    requires forall i :: 0 <= i < |ids| ==> ids[i] != ""
    ensures forall id :: id in services[ids[n] := added] && id !in before ==>
              TakenFirst(services[ids[n] := added][id], bots[..n + 1], ids)
  {
    NoBlank(services, before, bots[..n], ids);
    IsFirstAlike(services, bots, n);
    assert added == bots[..n + 1][n].service.value.(id := ids[n]);
    assert TakenFirst(added, bots[..n + 1], ids);
    forall id | id in services && id !in before ensures TakenFirst(services[id], bots[..n + 1], ids) {
      TakenFirstStays(services[id], bots, ids, n);
    }
  }

  lemma StayUnlike(services: Services, before: Services, bots: seq<Bot>, ids: seq<string>, newId: string, added: ServiceConfig)
    requires Extends(services, before, bots, ids) && "" !in before && forall i :: 0 <= i < |ids| ==> ids[i] != ""
    requires newId !in services && added.id == newId
    requires "" !in services ==> !HasIdentical(services, added)
    ensures var more := services[newId := added];
            forall id :: id in more && id !in before ==> Unlike(more, more[id])
  {
    NoBlank(services, before, bots, ids);
  }

  lemma NoBlank(services: Services, before: Services, bots: seq<Bot>, ids: seq<string>)
    requires Extends(services, before, bots, ids) && "" !in before
    requires forall i :: 0 <= i < |ids| ==> ids[i] != ""
    ensures "" !in services
  {
  }

  /** The service was stored under a new ID because none identical with an ID was there. */
  predicate AddedNew(services: Services, more: Services, service: ServiceConfig, newId: string) {
    && more == services[newId := service.(id := newId)]
    && ("" !in services ==> !HasIdentical(services, service))
  }

  /** The service for a bot's embedded service: an identical one, or itself under a new ID. */
  method PlaceService(services: Services, service: ServiceConfig, newId: string) returns (services': Services, id: string)
    requires newId != "" && newId !in services
    ensures id != "" && id in services' && Identical(services'[id], service)
    ensures services' == services || AddedNew(services, services', service, newId)
  {
    id := FindIdenticalService(services, service);
    services' := services;
    if id == "" {
      id := newId;
      services' := services[newId := service.(id := newId)];
    }
  }

  method ExtractServices(before: Services, bots: seq<Bot>, ids: seq<string>) returns (services: Services, mapping: map<string, string>)
    requires forall id :: id in before ==> before[id].id == id
    requires |ids| == |bots| && (forall i :: 0 <= i < |ids| ==> ids[i] != "" && ids[i] !in before)
    requires forall i, j :: 0 <= i < j < |ids| ==> ids[i] != ids[j]
    ensures Extends(services, before, bots, ids) && PlacedAll(bots, |bots|, mapping, services)
  {
    services, mapping := before, map[];
    for n := 0 to |bots|
      invariant Extracted(services, before, bots, ids, n, mapping)
    {
      NewIdIsUnused(services, before, bots[..n], ids, n);
      ghost var placed := services;
      var id := "";
      if bots[n].serviceId != "" {
        id := bots[n].serviceId;
      } else if Embeds(bots[n]) {
        services, id := PlaceService(services, bots[n].service.value, ids[n]);
      }
      ExtractedMore(placed, before, bots, ids, n, mapping, services, id);
      if id != "" { mapping := mapping[bots[n].id := id]; }
    }
    assert bots[..|bots|] == bots;
  }

  /** The first n bots have been seen and their services extracted. */
  predicate Extracted(services: Services, before: Services, bots: seq<Bot>, ids: seq<string>, n: nat, mapping: map<string, string>)
    requires n <= |bots|
  {
    Extends(services, before, bots[..n], ids) && PlacedAll(bots, n, mapping, services)
  }

  /** The next bot's service is a service with the ID id, or it has none. */
  lemma ExtractedMore(
    services: Services, before: Services, bots: seq<Bot>, ids: seq<string>, n: nat, mapping: map<string, string>,
    more: Services, id: string)
    requires n < |bots| == |ids| && Extracted(services, before, bots, ids, n, mapping)
    requires (forall i :: 0 <= i < |ids| ==> ids[i] != "") && ids[n] !in services
    requires more == services || (bots[n].serviceId == "" && Embeds(bots[n]) && AddedNew(services, more, bots[n].service.value, ids[n]))
    requires if bots[n].serviceId != "" then id == bots[n].serviceId
             else if Embeds(bots[n]) then id != "" && id in more && Identical(more[id], bots[n].service.value)
             else id == ""
    ensures Extracted(more, before, bots, ids, n + 1, if id != "" then mapping[bots[n].id := id] else mapping)
  {
    if more == services {
      ExtendsStays(services, before, bots, ids, n);
    } else {
      ExtendsByOne(services, before, bots, ids, n, bots[n].service.value.(id := ids[n]));
    }
    if id != "" { PlacedMore(bots, n, mapping, services, more, id); } else { PlacedNone(bots, n, mapping, services); }
  }

  lemma PlacedNone(bots: seq<Bot>, n: nat, mapping: map<string, string>, services: Services)
    requires n < |bots| && PlacedAll(bots, n, mapping, services)
    requires bots[n].serviceId == "" && !Embeds(bots[n])
    ensures PlacedAll(bots, n + 1, mapping, services)
  {
  }

  /** The first n bots have been seen. */
  predicate PlacedAll(bots: seq<Bot>, n: nat, mapping: map<string, string>, services: Services)
    requires n <= |bots|
  {
    && (forall id :: id in mapping ==> mapping[id] != "" && exists k :: 0 <= k < n && bots[k].id == id)
    && (forall k :: 0 <= k < n && (bots[k].serviceId != "" || Embeds(bots[k])) ==> bots[k].id in mapping)
    && (UniqueBotIds(bots) ==> forall k :: 0 <= k < n ==> Placed(bots[k], mapping, services))
  }

  lemma PlacedMore(bots: seq<Bot>, n: nat, mapping: map<string, string>, services: Services, more: Services, id: string)
    requires n < |bots| && PlacedAll(bots, n, mapping, services)
    requires forall k :: k in services ==> k in more && more[k] == services[k]
    requires id != "" && if bots[n].serviceId != "" then id == bots[n].serviceId
                         else Embeds(bots[n]) && id in more && Identical(more[id], bots[n].service.value)
    ensures PlacedAll(bots, n + 1, mapping[bots[n].id := id], more)
  {
    var m := mapping[bots[n].id := id];
    forall k | k in m ensures exists i :: 0 <= i < n + 1 && bots[i].id == k {
      if k == bots[n].id { assert bots[n].id == k; }
    }
    if UniqueBotIds(bots) {
      forall k | 0 <= k < n + 1 ensures Placed(bots[k], m, more) {
        if k < n { assert Placed(bots[k], mapping, services) && bots[k].id != bots[n].id; }
      }
    }
  }

  // ---------------------------------------------------------------- the separating migration

  /** A bot after the migration. */
  function Rewritten(bot: Bot, mapping: map<string, string>): Bot {
    if bot.id in mapping then bot.(serviceId := mapping[bot.id], service := None) else bot
  }

  method RewriteBots(bots: seq<Bot>, mapping: map<string, string>) returns (rewritten: seq<Bot>)
    ensures |rewritten| == |bots|
    ensures forall i :: 0 <= i < |bots| ==> rewritten[i] == Rewritten(bots[i], mapping)
  {
    rewritten := bots;
    for i := 0 to |bots|
      invariant |rewritten| == |bots|
      invariant forall k :: 0 <= k < |bots| ==> rewritten[k] == if k < i then Rewritten(bots[k], mapping) else bots[k]
    {
      if rewritten[i].id in mapping {
        rewritten := rewritten[i := rewritten[i].(serviceId := mapping[rewritten[i].id], service := None)];
      }
    }
  }

  /** Bots stay in place and change only where their service is, and no service is embedded
      any more. */
  predicate BotsSeparated(bots: seq<Bot>, next: seq<Bot>) {
    && |next| == |bots|
    && !NeedsSeparation(next)
    && forall i :: 0 <= i < |bots| ==> next[i] == bots[i].(serviceId := next[i].serviceId, service := next[i].service)
  }

  /** Every old service is kept, and every new one was embedded and, unless a service has a
      blank ID, is that of the first bot with such a service and identical to no other. */
  predicate ServicesSeparated(cfg: Config, next: seq<ServiceConfig>, ids: seq<string>) {
    && DistinctIds(next)
    && (forall i :: 0 <= i < |cfg.services| && IsLastWithId(cfg.services, i) ==> cfg.services[i] in next)
    && (forall s :: s in next && s in cfg.services ==> exists i :: 0 <= i < |cfg.services| && IsLastWithId(cfg.services, i) && cfg.services[i] == s)
    && (forall s :: s in next && s !in cfg.services ==>
          && TakenOut(s, cfg.bots, ids)
          && (NoBlankIds(cfg.services) ==> TakenFirst(s, cfg.bots, ids) && forall t :: t in next && t != s ==> !Identical(t, s)))
  }

  predicate IsLastWithId(services: seq<ServiceConfig>, i: nat)
    requires i < |services|
  {
    forall j :: i < j < |services| ==> services[j].id != services[i].id
  }

  lemma {:induction false} LastByIdIsTheLast(services: seq<ServiceConfig>, id: string) returns (i: int)
    ensures -1 <= i < |services| && (id in LastById(services) <==> i >= 0)
    ensures i >= 0 ==> services[i].id == id && IsLastWithId(services, i) && LastById(services)[id] == services[i]
  {
    if services == [] { return -1; }
    var n := |services| - 1;
    if services[n].id == id { return n; }
    i := LastByIdIsTheLast(services[..n], id);
    if i >= 0 { StaysLast(services, i); }
  }

  lemma StaysLast(services: seq<ServiceConfig>, i: nat)
    requires i < |services| - 1 && IsLastWithId(services[..|services| - 1], i) && services[|services| - 1].id != services[i].id
    ensures IsLastWithId(services, i)
  {
    var n := |services| - 1;
    forall j | i < j < n ensures services[j].id != services[i].id { assert services[..n][j] == services[j]; }
  }

  /** There is one last service with each ID. */
  lemma OneLast(services: seq<ServiceConfig>, i: nat)
    requires i < |services| && IsLastWithId(services, i)
    ensures LastById(services)[services[i].id] == services[i]
  {
    assert services[i] in services;
    var k := LastByIdIsTheLast(services, services[i].id);
    assert !(i < k) && !(k < i);
  }

  predicate NoBlankIds(services: seq<ServiceConfig>) {
    forall s :: s in services ==> s.id != ""
  }

  /** A bot that had a service ID keeps it; one with an embedded service now refers to an
      identical one; any other is left alone. */
  predicate Resolves(bot: Bot, bot': Bot, services: seq<ServiceConfig>) {
    if bot.serviceId != "" then bot' == bot.(service := None)
    else if Embeds(bot) then
      && bot'.service == None
      && bot'.serviceId in FirstById(services)
      && Identical(FirstById(services)[bot'.serviceId], bot.service.value)
    else bot' == bot
  }

  predicate Separated(cfg: Config, next: Config, ids: seq<string>) {
    && next.other == cfg.other
    && BotsSeparated(cfg.bots, next.bots)
    && ServicesSeparated(cfg, next.services, ids)
    && (UniqueBotIds(cfg.bots) ==>
          forall i :: 0 <= i < |cfg.bots| ==> Resolves(cfg.bots[i], next.bots[i], next.services))
  }

  lemma FoundByItsId(services: seq<ServiceConfig>, s: ServiceConfig)
    requires DistinctIds(services) && s in services
    ensures s.id in FirstById(services) && FirstById(services)[s.id] == s
  {
    FirstByIdFindsEarliest(services, s.id);
    var i :| 0 <= i < |services| && services[i] == s;
    var j :| 0 <= j < |services| && FirstById(services)[s.id] == services[j] && services[j].id == s.id;
    assert !(i < j) && !(j < i);
  }

  lemma BotsAreSeparated(cfg: Config, mapping: map<string, string>, services: Services, bots: seq<Bot>)
    requires PlacedAll(cfg.bots, |cfg.bots|, mapping, services)
    requires |bots| == |cfg.bots| && forall i :: 0 <= i < |bots| ==> bots[i] == Rewritten(cfg.bots[i], mapping)
    ensures BotsSeparated(cfg.bots, bots)
  {
    forall i | 0 <= i < |bots| ensures !Embeds(bots[i]) {
      if cfg.bots[i].id !in mapping { assert !Embeds(cfg.bots[i]); }
    }
  }

  lemma ServicesAreSeparated(cfg: Config, services: Services, list: seq<ServiceConfig>, ids: seq<string>)
    requires Extends(services, LastById(cfg.services), cfg.bots, ids)
    requires DistinctIds(list) && forall s :: s in list <==> s.id in services && services[s.id] == s
    ensures ServicesSeparated(cfg, list, ids)
  {
    var before := LastById(cfg.services);
    forall i | 0 <= i < |cfg.services| && IsLastWithId(cfg.services, i) ensures cfg.services[i] in list {
      assert cfg.services[i] in cfg.services;
      OneLast(cfg.services, i);
    }
    forall s | s in list && s in cfg.services
      ensures exists i :: 0 <= i < |cfg.services| && IsLastWithId(cfg.services, i) && cfg.services[i] == s
    {
      var i := LastByIdIsTheLast(cfg.services, s.id);
    }
    forall s | s in list && s !in cfg.services
      ensures TakenOut(s, cfg.bots, ids)
      ensures NoBlankIds(cfg.services) ==> TakenFirst(s, cfg.bots, ids) && forall t :: t in list && t != s ==> !Identical(t, s)
    {
      assert s.id !in before;
      if NoBlankIds(cfg.services) {
        assert "" !in before;
        assert Unlike(services, s);
        forall t | t in list && t != s ensures !Identical(t, s) { assert t.id != s.id; }
      }
    }
  }

  lemma BotResolves(bot: Bot, mapping: map<string, string>, services: Services, list: seq<ServiceConfig>)
    requires Placed(bot, mapping, services)
    requires forall id :: id in services ==> services[id].id == id
    requires DistinctIds(list) && forall s :: s in list <==> s.id in services && services[s.id] == s
    ensures Resolves(bot, Rewritten(bot, mapping), list)
  {
    if bot.serviceId == "" && Embeds(bot) { FoundByItsId(list, services[mapping[bot.id]]); }
  }

  method AnyEmbeds(bots: seq<Bot>) returns (needed: bool)
    ensures needed <==> NeedsSeparation(bots)
  {
    for i := 0 to |bots|
      invariant forall k :: 0 <= k < i ==> !Embeds(bots[k])
    {
      if Embeds(bots[i]) { return true; }
    }
    return false;
  }

  lemma UnusedStaysOut(ids: seq<string>, services: seq<ServiceConfig>)
    requires Unused(ids, services)
    ensures forall i :: 0 <= i < |ids| ==> ids[i] !in LastById(services)
  {
  }

  /** The bot has no service ID, and a service with a type inside. */
  predicate HasServiceInside(bot: Bot) {
    bot.serviceId == "" && bot.service.Some? && bot.service.value.kind != ""
  }

  /** A bot that has neither is left alone, and one with a service ID keeps it. */
  predicate OthersAreLeft(bots: seq<Bot>, next: seq<Bot>) {
    && |next| == |bots|
    && forall i :: 0 <= i < |bots| && !HasServiceInside(bots[i]) ==>
         next[i] == if bots[i].serviceId == "" then bots[i] else bots[i].(service := None)
  }

  lemma SeparatedLeavesOthers(cfg: Config, next: Config, ids: seq<string>)
    requires Separated(cfg, next, ids) && UniqueBotIds(cfg.bots)
    ensures OthersAreLeft(cfg.bots, next.bots)
  {
    forall i | 0 <= i < |cfg.bots| ensures Resolves(cfg.bots[i], next.bots[i], next.services) { }
  }

  lemma NeededForServicesInside(bots: seq<Bot>)
    ensures NeedsSeparation(bots) <==> exists bot :: bot in bots && HasServiceInside(bot)
  {
    if i :| 0 <= i < |bots| && Embeds(bots[i]) { assert bots[i] in bots && HasServiceInside(bots[i]); }
  }

  method MigrateSeparateServicesFromBots(cfg: Config, ids: seq<string>) returns (next: Config, changed: bool)
    requires NeedsSeparation(cfg.bots) ==> |ids| == |cfg.bots| && Unused(ids, cfg.services)
    ensures changed <==> NeedsSeparation(cfg.bots)
    ensures changed <==> exists bot :: bot in cfg.bots && HasServiceInside(bot)
    ensures changed && UniqueBotIds(cfg.bots) ==> OthersAreLeft(cfg.bots, next.bots)
    ensures if changed then Separated(cfg, next, ids) else next == cfg
  {
    NeededForServicesInside(cfg.bots);
    var needed := AnyEmbeds(cfg.bots);
    if !needed { return cfg, false; }
    next := SeparateServices(cfg, ids);
    changed := true;
    if UniqueBotIds(cfg.bots) { SeparatedLeavesOthers(cfg, next, ids); }
  }

  method SeparateServices(cfg: Config, ids: seq<string>) returns (next: Config)
    requires |ids| == |cfg.bots| && Unused(ids, cfg.services)
    ensures Separated(cfg, next, ids)
  {
    UnusedStaysOut(ids, cfg.services);
    var services, mapping := ExtractServices(LastById(cfg.services), cfg.bots, ids);
    var list := ServiceList(services);
    var bots := RewriteBots(cfg.bots, mapping);
    next := cfg.(services := list, bots := bots);
    AreSeparated(cfg, services, mapping, next, ids);
  }

  lemma AreSeparated(cfg: Config, services: Services, mapping: map<string, string>, next: Config, ids: seq<string>)
    requires Extends(services, LastById(cfg.services), cfg.bots, ids) && PlacedAll(cfg.bots, |cfg.bots|, mapping, services)
    requires DistinctIds(next.services) && forall s :: s in next.services <==> s.id in services && services[s.id] == s
    requires |next.bots| == |cfg.bots| && forall i :: 0 <= i < |next.bots| ==> next.bots[i] == Rewritten(cfg.bots[i], mapping)
    requires next.other == cfg.other
    ensures Separated(cfg, next, ids)
  {
    BotsAreSeparated(cfg, mapping, services, next.bots);
    ServicesAreSeparated(cfg, services, next.services, ids);
    forall i | UniqueBotIds(cfg.bots) && 0 <= i < |next.bots| ensures Resolves(cfg.bots[i], next.bots[i], next.services) {
      BotResolves(cfg.bots[i], mapping, services, next.services);
    }
  }

  /** With unique IDs, every service ID that could be looked up before is looked up to the same
      service after the migration: no existing reference changes its meaning. */
  lemma ReferencesKeepTheirService(cfg: Config, next: Config, ids: seq<string>, id: string)
    requires Separated(cfg, next, ids) && DistinctIds(cfg.services) && id in FirstById(cfg.services)
    ensures id in FirstById(next.services) && FirstById(next.services)[id] == FirstById(cfg.services)[id]
  {
    FirstByIdFindsEarliest(cfg.services, id);
    FoundByItsId(next.services, FirstById(cfg.services)[id]);
  }

  // ---------------------------------------------------------------- settings of migrated bots

  /** The service that a bot with an embedded one ends up with. */
  function Resolved(next: Config, i: nat): ServiceConfig
    requires i < |next.bots| && next.bots[i].serviceId in FirstById(next.services)
  {
    FirstById(next.services)[next.bots[i].serviceId]
  }

  /** A bot whose embedded service is migrated. */
  predicate Migrates(cfg: Config, next: Config, ids: seq<string>, i: nat) {
    Separated(cfg, next, ids) && UniqueBotIds(cfg.bots) && i < |cfg.bots| && Embeds(cfg.bots[i])
  }

  lemma MigratedBotResolves(cfg: Config, next: Config, ids: seq<string>, i: nat)
    requires Migrates(cfg, next, ids, i)
    ensures i < |next.bots| && next.bots[i].serviceId in FirstById(next.services)
    ensures Resolved(next, i) in next.services && Identical(Resolved(next, i), cfg.bots[i].service.value)
  {
    assert Resolves(cfg.bots[i], next.bots[i], next.services);
    FirstByIdFindsEarliest(next.services, next.bots[i].serviceId);
  }

  /** A service that agrees in what is compared agrees in everything else. */
  predicate Faithful(s: ServiceConfig, embedded: ServiceConfig) {
    Identical(s, embedded) ==> SameSettings(s, embedded)
  }

  /** If no stored or embedded service is identical without having the same settings, the bot
      keeps all its settings. */
  lemma MigratedBotKeepsItsSettings(cfg: Config, next: Config, ids: seq<string>, i: nat)
    requires Migrates(cfg, next, ids, i)
    requires forall s :: s in cfg.services ==> Faithful(s, cfg.bots[i].service.value)
    requires forall bot :: bot in cfg.bots && Embeds(bot) ==> Faithful(bot.service.value, cfg.bots[i].service.value)
    ensures i < |next.bots| && next.bots[i].serviceId in FirstById(next.services)
    ensures SameSettings(Resolved(next, i), cfg.bots[i].service.value)
  {
    MigratedBotResolves(cfg, next, ids, i);
    var r, b := Resolved(next, i), cfg.bots[i].service.value;
    if r !in cfg.services {
      var j :| 0 <= j < |cfg.bots| && j < |ids| && Embeds(cfg.bots[j]) && r == cfg.bots[j].service.value.(id := ids[j]);
      assert Faithful(cfg.bots[j].service.value, b);
    }
  }

  /** If a stored service is identical to the embedded one, the bot ends up with such a stored
      service, whatever settings that has. */
  lemma StoredServiceIsTakenOver(cfg: Config, next: Config, ids: seq<string>, i: nat, stored: ServiceConfig)
    requires Migrates(cfg, next, ids, i) && DistinctIds(cfg.services) && NoBlankIds(cfg.services)
    requires stored in cfg.services && Identical(stored, cfg.bots[i].service.value)
    ensures i < |next.bots| && next.bots[i].serviceId in FirstById(next.services)
    ensures Resolved(next, i) in cfg.services && Identical(Resolved(next, i), cfg.bots[i].service.value)
  {
    MigratedBotResolves(cfg, next, ids, i);
    assert stored in next.services;
  }

  predicate HasStored(cfg: Config, embedded: ServiceConfig) {
    exists s :: s in cfg.services && Identical(s, embedded)
  }

  /** A service whose settings the bot may end up with: any identical stored one, or else the
      identical one of the first bot that embeds such a service. */
  predicate TakesOver(cfg: Config, embedded: ServiceConfig, s: ServiceConfig) {
    && Identical(s, embedded)
    && if HasStored(cfg, embedded) then s in cfg.services
       else exists j :: 0 <= j < |cfg.bots| && FirstAlike(cfg.bots, j) && cfg.bots[j].service == Some(s)
  }

  predicate KeepsItsSettings(cfg: Config, next: Config, ids: seq<string>, i: nat) {
    Migrates(cfg, next, ids, i) ==>
      && i < |next.bots| && next.bots[i].serviceId in FirstById(next.services)
      && SameSettings(Resolved(next, i), cfg.bots[i].service.value)
  }

  /** Whichever identical services are found, the bot keeps its settings, if and only if every
      service that it may take over has them. */
  lemma MigratedBotKeepsItsSettingsExactly(cfg: Config, next: Config, ids: seq<string>, i: nat)
    requires Migrates(cfg, next, ids, i) && DistinctIds(cfg.services) && NoBlankIds(cfg.services)
    ensures (forall other :: KeepsItsSettings(cfg, other, ids, i)) <==>
            (forall s :: TakesOver(cfg, cfg.bots[i].service.value, s) ==> SameSettings(s, cfg.bots[i].service.value))
  {
    var b := cfg.bots[i].service.value;
    if forall other :: KeepsItsSettings(cfg, other, ids, i) {
      forall s | TakesOver(cfg, b, s) ensures SameSettings(s, b) {
        var other := MayTakeOver(cfg, next, ids, i, s);
        assert KeepsItsSettings(cfg, other, ids, i);
      }
    }
    if forall s :: TakesOver(cfg, b, s) ==> SameSettings(s, b) {
      forall other | Migrates(cfg, other, ids, i) ensures KeepsItsSettings(cfg, other, ids, i) {
        var s := TookOver(cfg, other, ids, i);
      }
    }
  }

  /** A migrated bot takes over one of these services. */
  lemma TookOver(cfg: Config, next: Config, ids: seq<string>, i: nat) returns (s: ServiceConfig)
    requires Migrates(cfg, next, ids, i) && DistinctIds(cfg.services) && NoBlankIds(cfg.services)
    ensures i < |next.bots| && next.bots[i].serviceId in FirstById(next.services)
    ensures TakesOver(cfg, cfg.bots[i].service.value, s) && Resolved(next, i) == s.(id := Resolved(next, i).id)
  {
    MigratedBotResolves(cfg, next, ids, i);
    var b := cfg.bots[i].service.value;
    s := Resolved(next, i);
    if HasStored(cfg, b) {
      var stored :| stored in cfg.services && Identical(stored, b);
      StoredServiceIsTakenOver(cfg, next, ids, i, stored);
    } else {
      var j :| 0 <= j < |cfg.bots| && j < |ids| && FirstAlike(cfg.bots, j) && s == cfg.bots[j].service.value.(id := ids[j]);
      s := cfg.bots[j].service.value;
    }
  }

  /** The bot may take over any of these services: another choice is another migration. */
  lemma MayTakeOver(cfg: Config, next: Config, ids: seq<string>, i: nat, s: ServiceConfig) returns (other: Config)
    requires Migrates(cfg, next, ids, i) && DistinctIds(cfg.services) && NoBlankIds(cfg.services)
    requires TakesOver(cfg, cfg.bots[i].service.value, s)
    ensures Migrates(cfg, other, ids, i)
    ensures i < |other.bots| && other.bots[i].serviceId in FirstById(other.services)
    ensures Resolved(other, i) == s.(id := Resolved(other, i).id)
  {
    var b := cfg.bots[i].service.value;
    if HasStored(cfg, b) {
      FoundByItsId(next.services, s);
      other := next.(bots := next.bots[i := next.bots[i].(serviceId := s.id)]);
    } else {
      other := next;
      var t := TookOver(cfg, next, ids, i);
      OneFirstAlike(cfg.bots, s, t, b);
    }
  }

  lemma OneFirstAlike(bots: seq<Bot>, s: ServiceConfig, t: ServiceConfig, embedded: ServiceConfig)
    requires Identical(s, embedded) && Identical(t, embedded)
    requires exists j :: 0 <= j < |bots| && FirstAlike(bots, j) && bots[j].service == Some(s)
    requires exists j :: 0 <= j < |bots| && FirstAlike(bots, j) && bots[j].service == Some(t)
    ensures s == t
  {
    var j :| 0 <= j < |bots| && FirstAlike(bots, j) && bots[j].service == Some(s);
    var k :| 0 <= k < |bots| && FirstAlike(bots, k) && bots[k].service == Some(t);
    assert !(j < k) && !(k < j);
  }

  /** For example its region: the bot is moved to the region of the stored service. */
  lemma RegionIsTakenOver(stored: ServiceConfig, bot: Bot, region: string, next: Config, ids: seq<string>)
    requires stored.id != "" && stored.kind != "" && region != stored.region
    requires bot.serviceId == "" && bot.service == Some(stored.(id := "", region := region))
    requires Separated(Config([stored], [bot], ""), next, ids)
    ensures |next.bots| == 1 && next.bots[0].serviceId in FirstById(next.services)
    ensures Resolved(next, 0) == stored && Resolved(next, 0).region != bot.service.value.region
  {
    var cfg := Config([stored], [bot], "");
    assert cfg.services[0] == stored && cfg.bots[0] == bot;
    IdenticalMissesSettings(stored, bot.service.value);
    StoredServiceIsTakenOver(cfg, next, ids, 0, stored);
  }

  // ---------------------------------------------------------------- old services to bots

  /** Decimal digits of a number. */
  function Decimal(n: nat): (digits: string)
    ensures digits != ""
  {
    (if n < 10 then "" else Decimal(n / 10)) + [('0' as int + n % 10) as char]
  }

  lemma {:induction false} DecimalIsInjective(m: nat, n: nat)
    requires Decimal(m) == Decimal(n)
    ensures m == n
  {
    var dm, dn := Decimal(m), Decimal(n);
    assert dm[|dm| - 1] == ('0' as int + m % 10) as char && dn[|dn| - 1] == ('0' as int + n % 10) as char;
    assert m % 10 == n % 10;
    assert (if m < 10 then "" else Decimal(m / 10)) == dm[..|dm| - 1];
    assert (if n < 10 then "" else Decimal(n / 10)) == dn[..|dn| - 1];
    if m >= 10 && n >= 10 { DecimalIsInjective(m / 10, n / 10); }
  }

  function FromLegacy(legacyService: LegacyService, id: string): ServiceConfig {
    ServiceConfig(id, legacyService.name, legacyService.serviceName, legacyService.apiKey, legacyService.orgId, legacyService.defaultModel, legacyService.url, "",
                  legacyService.tokenLimit, 0, 0, false, "", "", legacyService.settingsOk)
  }

  function BotFor(i: nat, service: ServiceConfig, botId: string): Bot {
    Bot(botId, "ai" + Decimal(i + 1), service.name, service.id, None, true, "")
  }

  predicate UsesOldSchema(services: seq<ServiceConfig>) {
    forall i :: 0 <= i < |services| ==> services[i].id == "" && services[i].kind == ""
  }

  predicate HasLegacyFields(legacy: seq<LegacyService>) {
    exists i :: 0 <= i < |legacy| && (legacy[i].serviceName != "" || legacy[i].url != "")
  }

  /** Only then is the old configuration loaded. */
  predicate LoadsLegacy(cfg: Config) {
    cfg.bots == [] && UsesOldSchema(cfg.services)
  }

  predicate NeedsBots(cfg: Config, legacy: Result<seq<LegacyService>, string>) {
    LoadsLegacy(cfg) && legacy.Ok? && HasLegacyFields(legacy.value)
  }

  /** One service and one bot for every old service, the bot referring to the service. */
  predicate Converted(cfg: Config, legacy: seq<LegacyService>, next: Config, serviceIds: seq<string>, botIds: seq<string>) {
    && |next.services| == |next.bots| == |legacy| <= |serviceIds| && |legacy| <= |botIds|
    && next.other == cfg.other
    && (forall i :: 0 <= i < |legacy| ==> next.services[i] == FromLegacy(legacy[i], serviceIds[i]))
    && (forall i :: 0 <= i < |legacy| ==> next.bots[i] == BotFor(i, next.services[i], botIds[i]))
  }

  method MigrateServicesToBots(cfg: Config, legacy: Result<seq<LegacyService>, string>, serviceIds: seq<string>, botIds: seq<string>)
    returns (r: Result<(Config, bool), string>)
    requires NeedsBots(cfg, legacy) ==> |serviceIds| >= |legacy.value| && |botIds| >= |legacy.value|
    ensures r.Err? <==> LoadsLegacy(cfg) && legacy.Err?
    ensures r.Ok? ==> (r.value.1 <==> NeedsBots(cfg, legacy))
    ensures r.Ok? ==> (r.value.1 <==>
              && cfg.bots == [] && (forall s :: s in cfg.services ==> s.id == "" && s.kind == "")
              && legacy.Ok? && exists was :: was in legacy.value && (was.serviceName != "" || was.url != ""))
    ensures r.Ok? ==> if r.value.1 then Converted(cfg, legacy.value, r.value.0, serviceIds, botIds) else r.value.0 == cfg
  {
    if |cfg.bots| != 0 { return Ok((cfg, false)); }
    for i := 0 to |cfg.services|
      invariant forall k :: 0 <= k < i ==> cfg.services[k].id == "" && cfg.services[k].kind == ""
    {
      if cfg.services[i].id != "" || cfg.services[i].kind != "" { return Ok((cfg, false)); }
    }
    if legacy.Err? { return Err(legacy.error); }
    var olds := legacy.value;
    var hasLegacyFields := false;
    for i := 0 to |olds|
      invariant !hasLegacyFields ==> forall k :: 0 <= k < i ==> olds[k].serviceName == "" && olds[k].url == ""
      invariant hasLegacyFields ==> HasLegacyFields(olds)
    {
      if olds[i].serviceName != "" || olds[i].url != "" { hasLegacyFields := true; }
    }
    if !hasLegacyFields { return Ok((cfg, false)); }
    var next := CreateServicesAndBots(cfg, olds, serviceIds, botIds);
    return Ok((next, true));
  }

  method CreateServicesAndBots(cfg: Config, legacy: seq<LegacyService>, serviceIds: seq<string>, botIds: seq<string>)
    returns (next: Config)
    requires |serviceIds| >= |legacy| && |botIds| >= |legacy|
    ensures Converted(cfg, legacy, next, serviceIds, botIds)
  {
    var services: seq<ServiceConfig> := [];
    for i := 0 to |legacy|
      invariant |services| == i && forall k :: 0 <= k < i ==> services[k] == FromLegacy(legacy[k], serviceIds[k])
    {
      services := services + [FromLegacy(legacy[i], serviceIds[i])];
    }
    var bots: seq<Bot> := [];
    for i := 0 to |services|
      invariant |bots| == i && forall k :: 0 <= k < i ==> bots[k] == BotFor(k, services[k], botIds[k])
    {
      bots := bots + [BotFor(i, services[i], botIds[i])];
    }
    next := cfg.(services := services, bots := bots);
  }

  /** Every old service gets a bot that resolves to it, with its settings, and no two bots
      have the same name. */
  lemma ConvertedBotsResolve(cfg: Config, legacy: seq<LegacyService>, next: Config, serviceIds: seq<string>, botIds: seq<string>, i: nat)
    requires Converted(cfg, legacy, next, serviceIds, botIds) && Unused(serviceIds, []) && i < |legacy|
    ensures next.bots[i].serviceId in FirstById(next.services)
    ensures var s, was := FirstById(next.services)[next.bots[i].serviceId], legacy[i];
            && s.id == serviceIds[i] && s.name == was.name && s.kind == was.serviceName && s.apiKey == was.apiKey
            && s.orgId == was.orgId && s.defaultModel == was.defaultModel && s.apiUrl == was.url
            && s.inputTokenLimit == was.tokenLimit && s.settingsOk == was.settingsOk
            && s.region == "" && s.fallbackServiceId == "" && s.other == ""
            && s.streamingTimeoutSeconds == 0 && s.outputTokenLimit == 0 && !s.useResponsesApi
    ensures next.bots[i].id == botIds[i] && next.bots[i].displayName == legacy[i].name
    ensures next.bots[i].service == None && next.bots[i].dynamicToolLoading && next.bots[i].other == ""
    ensures next.bots[i].name[..2] == "ai" && Lookup(FirstById(next.services), next.bots[i].serviceId) == Some(FromLegacy(legacy[i], serviceIds[i]))
    ensures forall j :: 0 <= j < |legacy| && next.bots[j].name == next.bots[i].name ==> j == i
  {
    assert next.services[i] in next.services;
    FoundByItsId(next.services, next.services[i]);
    forall j | 0 <= j < |legacy| && next.bots[j].name == next.bots[i].name ensures j == i {
      assert next.bots[j].name[2..] == Decimal(j + 1) && next.bots[i].name[2..] == Decimal(i + 1);
      DecimalIsInjective(j + 1, i + 1);
    }
  }

  // ---------------------------------------------------------------- all migrations

  /** Both migrations, in order. A run on the result reports no change. */
  method RunAllLegacyMigrations(
    cfg: Config, legacy: Result<seq<LegacyService>, string>, serviceIds: seq<string>, botIds: seq<string>, ids: seq<string>)
    returns (r: Result<(Config, bool), string>)
    requires NeedsBots(cfg, legacy) ==> |serviceIds| >= |legacy.value| && |botIds| >= |legacy.value|
    requires NeedsSeparation(cfg.bots) ==> |ids| == |cfg.bots| && Unused(ids, cfg.services)
    ensures r.Err? <==> LoadsLegacy(cfg) && legacy.Err?
    ensures r.Ok? ==> (r.value.1 <==> NeedsBots(cfg, legacy) || NeedsSeparation(cfg.bots))
    ensures r.Ok? ==>
              if NeedsBots(cfg, legacy) then Converted(cfg, legacy.value, r.value.0, serviceIds, botIds)
              else if NeedsSeparation(cfg.bots) then Separated(cfg, r.value.0, ids)
              else r.value.0 == cfg
    ensures r.Ok? ==> !NeedsBots(r.value.0, legacy) && !NeedsSeparation(r.value.0.bots)
    ensures r.Ok? && r.value.1 ==> !LoadsLegacy(r.value.0)
  {
    var first := MigrateServicesToBots(cfg, legacy, serviceIds, botIds);
    if first.Err? { return first; }
    var separated, didChange := MigrateSeparateServicesFromBots(first.value.0, ids);
    r := Ok((separated, first.value.1 || didChange));
  }
}
