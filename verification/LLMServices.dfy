/** LLM service configurations and their fallback chains (llm/configuration.go). */
module LLMServices {
  import opened Wrappers
  import opened Collections

  /** The fields the modelled code reads one by one. other stands for the remaining
      provider settings, and settingsOk for the check of the settings its type needs. */
  datatype ServiceConfig = ServiceConfig(
    id: string, name: string, kind: string,
    apiKey: string, orgId: string, defaultModel: string, apiUrl: string, region: string,
    inputTokenLimit: int, streamingTimeoutSeconds: int, outputTokenLimit: int,
    useResponsesApi: bool, fallbackServiceId: string,
    other: string, settingsOk: bool)

  predicate IsValidService(s: ServiceConfig) {
    s.id != "" && s.kind != "" && s.settingsOk
  }

  type Services = map<string, ServiceConfig>

  /** Services by ID; duplicate IDs resolve to the first entry. */
  function FirstById(services: seq<ServiceConfig>): Services {
    if services == [] then map[]
    else FirstById(services[1..])[services[0].id := services[0]]
  }

  /** The lookup finds a service exactly for the configured IDs, and the earliest one. */
  lemma {:induction false} FirstByIdFindsEarliest(services: seq<ServiceConfig>, id: string)
    ensures id in FirstById(services) <==> exists i :: 0 <= i < |services| && services[i].id == id
    ensures id in FirstById(services) ==>
              exists i :: 0 <= i < |services| && FirstById(services)[id] == services[i] && services[i].id == id &&
                          forall j :: 0 <= j < i ==> services[j].id != id
  {
    if services != [] {
      FirstByIdFindsEarliest(services[1..], id);
      assert forall i :: 0 < i < |services| ==> services[i] == services[1..][i - 1];
      if services[0].id != id && id in FirstById(services) {
        var i :| 0 <= i < |services| - 1 && FirstById(services[1..])[id] == services[1..][i] && services[1..][i].id == id &&
                 forall j :: 0 <= j < i ==> services[1..][j].id != id;
        assert services[i + 1] == services[1..][i];
        assert forall j :: 0 <= j < i + 1 ==> services[j].id != id;
      } else if services[0].id == id {
        assert services[0].id == id;
      }
    }
  }

  method ServiceLookup(services: seq<ServiceConfig>) returns (byId: Services)
    ensures byId == FirstById(services)
  {
    byId := map[];
    for i := 0 to |services|
      invariant byId == FirstById(services[..i])
    {
      FirstByIdSnoc(services[..i], services[i]);
      assert services[..i + 1] == services[..i] + [services[i]];
      if services[i].id !in byId {
        byId := byId[services[i].id := services[i]];
      }
    }
    assert services[..|services|] == services;
  }

  lemma {:induction false} FirstByIdSnoc(services: seq<ServiceConfig>, s: ServiceConfig)
    ensures FirstById(services + [s]) ==
            if s.id in FirstById(services) then FirstById(services) else FirstById(services)[s.id := s]
  {
    if services == [] {
      assert services + [s] == [s] && [s][1..] == [];
    } else {
      var rest := services[1..];
      assert (services + [s])[1..] == rest + [s] && (services + [s])[0] == services[0];
      FirstByIdSnoc(rest, s);
    }
  }

  datatype ChainError = Cycle(at: string) | Missing(at: string) | Invalid(at: string)

  /** The services reached from current by following fallback IDs. */
  function Follow(byId: Services, current: string, visited: set<string>): Result<seq<ServiceConfig>, ChainError>
    decreases |byId.Keys - visited|
  {
    if current == "" then Ok([])
    else if current in visited then Err(Cycle(current))
    else if current !in byId then Err(Missing(current))
    else if !IsValidService(byId[current]) then Err(Invalid(current))
    else
      assert byId.Keys - (visited + {current}) < byId.Keys - visited by {
        assert current in byId.Keys - visited;
      }
      SmallerSet(byId.Keys - (visited + {current}), byId.Keys - visited);
      match Follow(byId, byId[current].fallbackServiceId, visited + {current})
      case Ok(rest) => Ok([byId[current]] + rest)
      case Err(e) => Err(e)
  }

  lemma SmallerSet(a: set<string>, b: set<string>)
    requires a < b
    ensures |a| < |b|
  {
    var x :| x in b && x !in a;
    assert a <= b - {x};
    SubsetSize(a, b - {x});
  }

  function FallbackChain(byId: Services, primary: string): Result<seq<ServiceConfig>, ChainError> {
    if primary !in byId then Ok([]) else Follow(byId, byId[primary].fallbackServiceId, {primary})
  }

  predicate DistinctIds(chain: seq<ServiceConfig>) {
    forall i, j :: 0 <= i < j < |chain| ==> chain[i].id != chain[j].id
  }

  /** A resolved chain visits valid services only, none twice and none visited before,
      each the fallback of the one before, and the last without a fallback. */
  lemma {:induction false} FollowIsAPath(byId: Services, current: string, visited: set<string>)
    requires forall id :: id in byId ==> byId[id].id == id
    ensures Follow(byId, current, visited).Ok? ==>
              var chain := Follow(byId, current, visited).value;
              && DistinctIds(chain)
              && (forall s :: s in chain ==> IsValidService(s) && s.id !in visited && s.id in byId && byId[s.id] == s)
              && (current == "" <==> chain == [])
              && (chain != [] ==> chain[0].id == current && chain[|chain| - 1].fallbackServiceId == "")
              && (forall i :: 0 <= i < |chain| - 1 ==> chain[i + 1].id == chain[i].fallbackServiceId)
    decreases |byId.Keys - visited|
  {
    if Follow(byId, current, visited).Ok? && current != "" {
      var visited' := visited + {current};
      assert current in byId.Keys - visited;
      SmallerSet(byId.Keys - visited', byId.Keys - visited);
      FollowIsAPath(byId, byId[current].fallbackServiceId, visited');
      var rest := Follow(byId, byId[current].fallbackServiceId, visited').value;
      PathGrows(byId[current], rest);
    }
  }

  lemma PathGrows(s: ServiceConfig, rest: seq<ServiceConfig>)
    requires DistinctIds(rest) && forall t :: t in rest ==> t.id != s.id
    requires s.fallbackServiceId == "" <==> rest == []
    requires rest != [] ==> rest[0].id == s.fallbackServiceId
    requires forall i :: 0 <= i < |rest| - 1 ==> rest[i + 1].id == rest[i].fallbackServiceId
    ensures var chain := [s] + rest;
            && DistinctIds(chain)
            && (forall i :: 0 <= i < |chain| - 1 ==> chain[i + 1].id == chain[i].fallbackServiceId)
            && forall t :: t in chain <==> t == s || t in rest
  {
  }

  function Ids(path: seq<ServiceConfig>): set<string> {
    set i | 0 <= i < |path| :: path[i].id
  }

  /** Starting at current, the services of path come one after the other, each the fallback of
      the one before: valid, configured, and none twice or visited before. */
  predicate Walks(byId: Services, current: string, visited: set<string>, path: seq<ServiceConfig>) {
    && DistinctIds(path)
    && (path != [] ==> path[0].id == current)
    && (forall i :: 0 <= i < |path| ==>
          && path[i].id in byId && byId[path[i].id] == path[i] && path[i].id !in visited
          && path[i].id != "" && path[i].kind != "" && path[i].settingsOk)
    && (forall i :: 0 <= i < |path| - 1 ==> path[i + 1].id == path[i].fallbackServiceId)
  }

  /** The fallback that comes after path. */
  function NextAfter(current: string, path: seq<ServiceConfig>): string {
    if path == [] then current else path[|path| - 1].fallbackServiceId
  }

  lemma WalkRest(byId: Services, current: string, visited: set<string>, path: seq<ServiceConfig>)
    requires path != [] && Walks(byId, current, visited, path)
    ensures Walks(byId, path[0].fallbackServiceId, visited + {current}, path[1..])
    ensures NextAfter(path[0].fallbackServiceId, path[1..]) == NextAfter(current, path)
    ensures visited + {current} + Ids(path[1..]) == visited + Ids(path)
  {
    var rest := path[1..];
    assert forall i :: 0 <= i < |rest| ==> rest[i] == path[i + 1];
    forall id | id in Ids(path) ensures id in {current} + Ids(rest) {
      var i :| 0 <= i < |path| && path[i].id == id;
      if i > 0 { assert rest[i - 1].id == id; }
    }
    forall id | id in Ids(rest) ensures id in Ids(path) {
      var i :| 0 <= i < |rest| && rest[i].id == id;
      assert path[i + 1].id == id;
    }
  }

  /** Following a walk to its end and going on is the same as following from the start. */
  lemma {:induction false} FollowTheWalk(byId: Services, current: string, visited: set<string>, path: seq<ServiceConfig>)
    requires Walks(byId, current, visited, path)
    ensures Follow(byId, current, visited) ==
            match Follow(byId, NextAfter(current, path), visited + Ids(path))
            case Ok(rest) => Ok(path + rest)
            case Err(e) => Err(e)
    decreases |path|
  {
    if path == [] {
      assert visited + Ids(path) == visited;
      assert forall rest: seq<ServiceConfig> :: path + rest == rest;
    } else {
      WalkRest(byId, current, visited, path);
      FollowTheWalk(byId, path[0].fallbackServiceId, visited + {current}, path[1..]);
      assert byId[current] == path[0];
      assert forall rest: seq<ServiceConfig> :: [path[0]] + (path[1..] + rest) == path + rest;
    }
  }

  /** What is wrong with going on to next. */
  predicate Blocked(byId: Services, next: string, visited: set<string>, e: ChainError) {
    next != "" &&
    match e
    case Cycle(at) => at == next && next in visited
    case Missing(at) => at == next && next !in visited && next !in byId
    case Invalid(at) =>
      && at == next && next !in visited && next in byId
      && !(byId[next].id != "" && byId[next].kind != "" && byId[next].settingsOk)
  }

  /** Following ends somewhere: after a walk, without a next one or with a blocked one. */
  lemma {:induction false} FollowEnds(byId: Services, current: string, visited: set<string>) returns (path: seq<ServiceConfig>)
    requires forall id :: id in byId ==> byId[id].id == id
    ensures EndsAt(byId, current, visited, path)
    decreases |byId.Keys - visited|
  {
    path := [];
    if current == "" || current in visited || current !in byId || !IsValidService(byId[current]) {
      assert visited + Ids(path) == visited;
    } else {
      assert current in byId.Keys - visited;
      SmallerSet(byId.Keys - (visited + {current}), byId.Keys - visited);
      var rest := FollowEnds(byId, byId[current].fallbackServiceId, visited + {current});
      path := [byId[current]] + rest;
      EndsEarlier(byId, current, visited, rest);
    }
  }

  predicate EndsAt(byId: Services, current: string, visited: set<string>, path: seq<ServiceConfig>) {
    && Walks(byId, current, visited, path)
    && match Follow(byId, current, visited)
       case Ok(chain) => chain == path && NextAfter(current, path) == ""
       case Err(e) => Blocked(byId, NextAfter(current, path), visited + Ids(path), e)
  }

  lemma EndsEarlier(byId: Services, current: string, visited: set<string>, rest: seq<ServiceConfig>)
    requires current != "" && current in byId && current !in visited && byId[current].id == current && IsValidService(byId[current])
    requires EndsAt(byId, byId[current].fallbackServiceId, visited + {current}, rest)
    ensures EndsAt(byId, current, visited, [byId[current]] + rest)
  {
    WalkMore(byId, current, visited, rest);
    var path := [byId[current]] + rest;
    assert path[1..] == rest;
    WalkRest(byId, current, visited, path);
  }

  lemma WalkMore(byId: Services, current: string, visited: set<string>, rest: seq<ServiceConfig>)
    requires current != "" && current in byId && current !in visited && byId[current].id == current && IsValidService(byId[current])
    requires Walks(byId, byId[current].fallbackServiceId, visited + {current}, rest)
    ensures Walks(byId, current, visited, [byId[current]] + rest)
  {
    var path := [byId[current]] + rest;
    assert forall i :: 0 < i < |path| ==> path[i] == rest[i - 1];
  }

  /** A walk from a primary service along its fallbacks. */
  predicate WalksFrom(byId: Services, primary: string, path: seq<ServiceConfig>, next: string) {
    primary in byId && Walks(byId, byId[primary].fallbackServiceId, {primary}, path) &&
    next == NextAfter(byId[primary].fallbackServiceId, path)
  }

  /** The chain is resolved exactly if the walk from the primary ends at a service without a
      fallback, and then it is that walk; a missing primary has no chain. */
  lemma ChainIsTheWalk(byId: Services, primary: string, chain: seq<ServiceConfig>)
    requires forall id :: id in byId ==> byId[id].id == id
    ensures FallbackChain(byId, primary) == Ok(chain) <==>
            if primary in byId then WalksFrom(byId, primary, chain, "") else chain == []
  {
    if primary in byId {
      var path := FollowEnds(byId, byId[primary].fallbackServiceId, {primary});
      if WalksFrom(byId, primary, chain, "") {
        FollowTheWalk(byId, byId[primary].fallbackServiceId, {primary}, chain);
        assert chain + [] == chain;
      }
    }
  }

  /** It fails exactly if the walk comes to a service that was visited, is missing or invalid. */
  lemma ChainFailsExactly(byId: Services, primary: string, e: ChainError)
    requires forall id :: id in byId ==> byId[id].id == id
    ensures FallbackChain(byId, primary) == Err(e) <==>
            exists path, next :: WalksFrom(byId, primary, path, next) && Blocked(byId, next, {primary} + Ids(path), e)
  {
    if FallbackChain(byId, primary) == Err(e) {
      var path := FollowEnds(byId, byId[primary].fallbackServiceId, {primary});
      var next := NextAfter(byId[primary].fallbackServiceId, path);
      assert WalksFrom(byId, primary, path, next) && Blocked(byId, next, {primary} + Ids(path), e);
    }
    if path, next :| WalksFrom(byId, primary, path, next) && Blocked(byId, next, {primary} + Ids(path), e) {
      FollowTheWalk(byId, byId[primary].fallbackServiceId, {primary}, path);
    }
  }

  method ResolveFallbackChain(primary: string, byId: Services) returns (r: Result<seq<ServiceConfig>, ChainError>)
    ensures r == FallbackChain(byId, primary)
  {
    if primary !in byId { return Ok([]); }
    var chain: seq<ServiceConfig> := [];
    var visited := {primary};
    var current := byId[primary].fallbackServiceId;
    assert forall rest: seq<ServiceConfig> :: chain + rest == rest;
    while current != ""
      invariant FallbackChain(byId, primary) ==
                match Follow(byId, current, visited)
                case Ok(rest) => Ok(chain + rest)
                case Err(e) => Err(e)
      decreases |byId.Keys - visited|
    {
      if current in visited { return Err(Cycle(current)); }
      var before := visited;
      visited := visited + {current};
      if current !in byId { return Err(Missing(current)); }
      var svc := byId[current];
      if !IsValidService(svc) { return Err(Invalid(current)); }
      assert current in byId.Keys - before;
      SmallerSet(byId.Keys - visited, byId.Keys - before);
      ghost var rest := Follow(byId, svc.fallbackServiceId, visited);
      assert rest.Ok? ==> chain + ([svc] + rest.value) == (chain + [svc]) + rest.value;
      chain := chain + [svc];
      current := svc.fallbackServiceId;
    }
    assert chain + [] == chain;
    r := Ok(chain);
  }
}
