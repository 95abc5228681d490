/**
 Fallback chains of a request (bots/fallback_access.go, bifrost/bifrost.go and
 bifrost/account.go): the hops a user may use, the models named in the prompt, and the
 registration of every hop under a provider name of its own.
 */
module FallbackChains {
  import opened Wrappers
  import opened Collections
  import opened GoStrings
  import opened LLMServices

  // ---------------------------------------------------------------- access

  /** The longest prefix of hops that may all be used. */
  function AllowedPrefix(chain: seq<ServiceConfig>, canUse: string -> bool): (prefix: seq<ServiceConfig>)
    ensures prefix <= chain
    ensures forall s :: s in prefix ==> canUse(s.id)
    ensures |prefix| < |chain| ==> !canUse(chain[|prefix|].id)
  {
    if chain == [] || !canUse(chain[0].id) then [] else [chain[0]] + AllowedPrefix(chain[1..], canUse)
  }

  function Ids(chain: seq<ServiceConfig>): (ids: seq<string>)
    ensures |ids| == |chain|
    ensures forall i :: 0 <= i < |chain| ==> ids[i] == chain[i].id
  {
    seq(|chain|, i requires 0 <= i < |chain| => chain[i].id)
  }

  lemma FirstOfPrefix<T>(s: seq<T>, n: nat)
    requires 0 < n <= |s|
    ensures s[..n] == [s[0]] + s[1..][..n - 1]
  {
  }

  lemma {:induction false} PrefixIsLongest(chain: seq<ServiceConfig>, canUse: string -> bool, n: nat)
    requires n <= |chain| && (forall i :: 0 <= i < n ==> canUse(chain[i].id)) && (n < |chain| ==> !canUse(chain[n].id))
    ensures AllowedPrefix(chain, canUse) == chain[..n]
  {
    if n > 0 {
      PrefixIsLongest(chain[1..], canUse, n - 1);
      FirstOfPrefix(chain, n);
    }
  }

  /** CanUse is the access check for the requesting user; an evaluation error counts as a
      refusal. */
  method AllowedFallbackServiceIDs(byId: Services, primary: string, canUse: string -> bool) returns (r: Result<seq<string>, ChainError>)
    ensures var chain := FallbackChain(byId, primary);
            r == if chain.Ok? then Ok(Ids(AllowedPrefix(chain.value, canUse))) else Err(chain.error)
  {
    var resolved := ResolveFallbackChain(primary, byId);
    if resolved.Err? { return Err(resolved.error); }
    var chain := resolved.value;
    var ids: seq<string> := [];
    var n := |chain|;
    for i := 0 to |chain|
      invariant ids == Ids(chain[..i]) && n == |chain|
      invariant forall k :: 0 <= k < i ==> canUse(chain[k].id)
    {
      if !canUse(chain[i].id) { n := i; break; }
      assert Ids(chain[..i + 1]) == Ids(chain[..i]) + [chain[i].id];
      ids := ids + [chain[i].id];
    }
    PrefixIsLongest(chain, canUse, n);
    assert ids == Ids(chain[..n]);
    r := Ok(ids);
  }

  /** The parts of a completion request that concern fallbacks. */
  datatype Request = Request(user: string, restricted: bool, allowed: seq<string>)

  function Restricted(request: Request, chain: Result<seq<ServiceConfig>, ChainError>, canUse: string -> bool): Request {
    if request.restricted || request.user == "" then request
    else if chain.Err? then request.(restricted := true)
    else request.(restricted := true, allowed := Ids(AllowedPrefix(chain.value, canUse)))
  }

  method Restrict(request: Request, byId: Services, primary: string, canUse: string -> bool) returns (request': Request)
    ensures request' == Restricted(request, FallbackChain(byId, primary), canUse)
  {
    if request.restricted || request.user == "" { return request; }
    var ids := AllowedFallbackServiceIDs(byId, primary, canUse);
    request' := request.(restricted := true);
    if ids.Ok? { request' := request'.(allowed := ids.value); }
  }

  // ---------------------------------------------------------------- attaching hops

  datatype Hop = Hop(provider: string, model: string, serviceId: string)

  /** The hops up to the first one outside the allowed IDs. */
  function Attached(hops: seq<Hop>, request: Request): (out: seq<Hop>)
    ensures out <= hops
    ensures request.restricted ==> forall h :: h in out ==> h.serviceId in request.allowed
  {
    if hops == [] || (request.restricted && hops[0].serviceId !in request.allowed) then []
    else [hops[0]] + Attached(hops[1..], request)
  }

  method RequestFallbacks(hops: seq<Hop>, request: Request) returns (out: seq<Hop>)
    ensures out == Attached(hops, request)
  {
    out := [];
    assert hops[0..] == hops && [] + Attached(hops, request) == Attached(hops, request);
    for i := 0 to |hops|
      invariant AttachedSoFar(hops, request, out, i)
    {
      if request.restricted && hops[i].serviceId !in request.allowed {
        assert out + [] == out;
        return;
      }
      AttachNext(hops, request, out, i);
      out := out + [hops[i]];
    }
  }

  predicate AttachedSoFar(hops: seq<Hop>, request: Request, out: seq<Hop>, i: nat)
    requires i <= |hops|
  {
    Attached(hops, request) == out + Attached(hops[i..], request)
  }

  lemma AttachNext(hops: seq<Hop>, request: Request, out: seq<Hop>, i: nat)
    requires i < |hops| && (request.restricted ==> hops[i].serviceId in request.allowed) && AttachedSoFar(hops, request, out, i)
    ensures AttachedSoFar(hops, request, out + [hops[i]], i + 1)
  {
    assert hops[i..][1..] == hops[i + 1..];
    Assoc(out, [hops[i]], Attached(hops[i + 1..], request));
  }

  /** Hops built for a chain, in its order. */
  predicate BuiltFor(hops: seq<Hop>, chain: seq<ServiceConfig>) {
    |hops| == |chain| && forall i :: 0 <= i < |chain| ==> hops[i].serviceId == chain[i].id && hops[i].model == chain[i].defaultModel
  }

  lemma {:induction false} AttachedUpTo(hops: seq<Hop>, request: Request, n: nat)
    requires n <= |hops| && (forall i :: 0 <= i < n ==> hops[i].serviceId in request.allowed)
    requires request.restricted && (n < |hops| ==> hops[n].serviceId !in request.allowed)
    ensures Attached(hops, request) == hops[..n]
  {
    if n > 0 {
      AttachedUpTo(hops[1..], request, n - 1);
      FirstOfPrefix(hops, n);
    }
  }

  /** With the chain the client was built with, a user gets exactly the longest prefix of hops
      that he may use at every hop. */
  lemma AttachedAreTheAllowed(byId: Services, primary: string, canUse: string -> bool, hops: seq<Hop>, request: Request)
    requires forall id :: id in byId ==> byId[id].id == id
    requires FallbackChain(byId, primary).Ok? && BuiltFor(hops, FallbackChain(byId, primary).value)
    requires !request.restricted && request.user != ""
    ensures var chain := FallbackChain(byId, primary);
            Attached(hops, Restricted(request, chain, canUse)) == hops[..|AllowedPrefix(chain.value, canUse)|]
  {
    var chain := FallbackChain(byId, primary).value;
    ChainIsDistinct(byId, primary);
    var prefix := AllowedPrefix(chain, canUse);
    var n := |prefix|;
    assert forall i :: 0 <= i < n ==> prefix[i] == chain[i];
    if n < |chain| {
      assert forall i :: 0 <= i < n ==> Ids(prefix)[i] == chain[i].id && chain[i].id != chain[n].id;
    }
    AttachedUpTo(hops, Restricted(request, Ok(chain), canUse), n);
  }

  lemma ChainIsDistinct(byId: Services, primary: string)
    requires forall id :: id in byId ==> byId[id].id == id
    ensures FallbackChain(byId, primary).Ok? ==> DistinctIds(FallbackChain(byId, primary).value)
  {
    if primary in byId { FollowIsAPath(byId, byId[primary].fallbackServiceId, {primary}); }
  }

  /** Whatever chain the client was built with, a hop the user may not use is never attached,
      nor one that is not in the chain any more. */
  lemma NoRefusedHopIsAttached(hops: seq<Hop>, request: Request, chain: seq<ServiceConfig>, canUse: string -> bool)
    requires !request.restricted && request.user != ""
    ensures forall h :: h in Attached(hops, Restricted(request, Ok(chain), canUse)) ==>
              canUse(h.serviceId) && exists s :: s in chain && s.id == h.serviceId
  {
    var prefix := AllowedPrefix(chain, canUse);
    forall h | h in Attached(hops, Restricted(request, Ok(chain), canUse))
      ensures canUse(h.serviceId) && exists s :: s in chain && s.id == h.serviceId
    {
      var i :| 0 <= i < |prefix| && Ids(prefix)[i] == h.serviceId;
      assert prefix[i] in prefix && prefix[i] == chain[i];
    }
  }

  /** A chain that cannot be resolved attaches no hop exactly when the request did not already
      carry the ID of the first one. */
  lemma UnresolvedChainFailsClosed(hops: seq<Hop>, request: Request, error: ChainError, canUse: string -> bool)
    requires !request.restricted && request.user != "" && hops != []
    ensures Attached(hops, Restricted(request, Err(error), canUse)) == [] <==> hops[0].serviceId !in request.allowed
  {
  }

  /** A request without a user, or one that is restricted already, is left as it is; without a
      restriction it gets every hop. */
  lemma OnlyUsersAreRestricted(hops: seq<Hop>, request: Request, chain: Result<seq<ServiceConfig>, ChainError>, canUse: string -> bool)
    requires request.restricted || request.user == ""
    ensures Restricted(request, chain, canUse) == request
    ensures !request.restricted ==> Attached(hops, Restricted(request, chain, canUse)) == hops
  {
    if !request.restricted { AllAreAttached(hops, request); }
  }

  lemma {:induction false} AllAreAttached(hops: seq<Hop>, request: Request)
    requires !request.restricted
    ensures Attached(hops, request) == hops
  {
    if hops != [] { AllAreAttached(hops[1..], request); }
  }

  /** Hops are attached up to the first one that is not allowed, and no further. */
  lemma {:induction false} AttachedUntilRefused(hops: seq<Hop>, request: Request)
    ensures var n := |Attached(hops, request)|;
            && n <= |hops| && Attached(hops, request) == hops[..n]
            && (n < |hops| ==> request.restricted && hops[n].serviceId !in request.allowed)
  {
    if hops != [] { AttachedUntilRefused(hops[1..], request); }
  }

  // ---------------------------------------------------------------- models in the prompt

  /** The models of hops, each once, without blank ones and those seen before. */
  function ModelNames(chain: seq<ServiceConfig>, primaryModel: string): (names: seq<string>)
  {
    if chain == [] then []
    else
      var n := |chain| - 1;
      var before := ModelNames(chain[..n], primaryModel);
      var name := TrimSpace(chain[n].defaultModel);
      if name == "" || name == primaryModel || name in before then before else before + [name]
  }

  /** The models of the first n hops are named; seen are these and the primary's. */
  ghost predicate NamedUpTo(chain: seq<ServiceConfig>, n: nat, primaryModel: string, names: seq<string>, seen: set<string>)
    requires n <= |chain|
  {
    && names == ModelNames(chain[..n], primaryModel)
    && forall name :: name in seen <==> name == primaryModel || name in names
  }

  lemma NamedMore(chain: seq<ServiceConfig>, n: nat, primaryModel: string, names: seq<string>, seen: set<string>, name: string)
    requires n < |chain| && NamedUpTo(chain, n, primaryModel, names, seen) && name == TrimSpace(chain[n].defaultModel)
    ensures if name == "" || name in seen then NamedUpTo(chain, n + 1, primaryModel, names, seen)
            else NamedUpTo(chain, n + 1, primaryModel, names + [name], seen + {name})
  {
    assert chain[..n + 1][..n] == chain[..n];
  }

  predicate HasModel(chain: seq<ServiceConfig>, name: string) {
    exists i :: 0 <= i < |chain| && TrimSpace(chain[i].defaultModel) == name
  }

  lemma HasModelSnoc(chain: seq<ServiceConfig>, name: string)
    requires chain != []
    ensures HasModel(chain, name) <==>
            HasModel(chain[..|chain| - 1], name) || TrimSpace(chain[|chain| - 1].defaultModel) == name
  {
    var n := |chain| - 1;
    if HasModel(chain[..n], name) {
      var i :| 0 <= i < n && TrimSpace(chain[..n][i].defaultModel) == name;
      assert TrimSpace(chain[i].defaultModel) == name;
    }
    if i :| 0 <= i < n && TrimSpace(chain[i].defaultModel) == name { assert TrimSpace(chain[..n][i].defaultModel) == name; }
  }

  /** Exactly the models other than the primary's are named, each once. */
  lemma {:induction false} NamesAreTheModels(chain: seq<ServiceConfig>, primaryModel: string, name: string)
    ensures name in ModelNames(chain, primaryModel) <==> name != "" && name != primaryModel && HasModel(chain, name)
  {
    if chain != [] {
      NamesAreTheModels(chain[..|chain| - 1], primaryModel, name);
      HasModelSnoc(chain, name);
    }
  }

  /** Names come in the order of the hops: more hops only add names at the end. */
  lemma {:induction false} NamesComeInOrder(chain: seq<ServiceConfig>, primaryModel: string, n: nat)
    requires n <= |chain|
    ensures ModelNames(chain[..n], primaryModel) <= ModelNames(chain, primaryModel)
    decreases |chain|
  {
    if n == |chain| {
      assert chain[..n] == chain;
    } else {
      NamesComeInOrder(chain[..|chain| - 1], primaryModel, n);
      assert chain[..|chain| - 1][..n] == chain[..n];
    }
  }

  predicate Distinct(names: seq<string>) {
    forall i, j :: 0 <= i < j < |names| ==> names[i] != names[j]
  }

  lemma {:induction false} NamesAreDistinct(chain: seq<ServiceConfig>, primaryModel: string)
    ensures Distinct(ModelNames(chain, primaryModel))
  {
    if chain != [] { NamesAreDistinct(chain[..|chain| - 1], primaryModel); }
  }

  /** The hops of the built chain that a request can reach. */
  function Reachable(chain: seq<ServiceConfig>, request: Request): (prefix: seq<ServiceConfig>)
    ensures prefix <= chain
  {
    if chain == [] || (request.restricted && chain[0].id !in request.allowed) then []
    else [chain[0]] + Reachable(chain[1..], request)
  }

  predicate AllReachable(chain: seq<ServiceConfig>, request: Request, n: nat)
    requires n <= |chain|
  {
    forall k :: 0 <= k < n ==> request.restricted ==> chain[k].id in request.allowed
  }

  method ReachableFallbackModels(chain: seq<ServiceConfig>, request: Request, primaryModel: string, licensed: bool) returns (names: seq<string>)
    ensures names == if licensed then ModelNames(Reachable(chain, request), primaryModel) else []
  {
    if |chain| == 0 || !licensed { return []; }
    var seen := {primaryModel};
    names := [];
    for i := 0 to |chain|
      invariant AllReachable(chain, request, i)
      invariant NamedUpTo(chain, i, primaryModel, names, seen)
    {
      if request.restricted && chain[i].id !in request.allowed {
        ReachableUpTo(chain, request, i);
        return;
      }
      var name := TrimSpace(chain[i].defaultModel);
      NamedMore(chain, i, primaryModel, names, seen, name);
      if name == "" || name in seen { continue; }
      seen := seen + {name};
      names := names + [name];
    }
    ReachableUpTo(chain, request, |chain|);
  }

  lemma {:induction false} ReachableUpTo(chain: seq<ServiceConfig>, request: Request, n: nat)
    requires n <= |chain| && AllReachable(chain, request, n)
    requires n < |chain| ==> request.restricted && chain[n].id !in request.allowed
    ensures Reachable(chain, request) == chain[..n]
  {
    if n > 0 {
      ReachableUpTo(chain[1..], request, n - 1);
      FirstOfPrefix(chain, n);
    }
  }

  /** The prompt names the models of exactly the hops that are attached. */
  lemma {:induction false} PromptMatchesTheHops(hops: seq<Hop>, chain: seq<ServiceConfig>, request: Request)
    requires BuiltFor(hops, chain)
    ensures BuiltFor(Attached(hops, request), Reachable(chain, request))
  {
    if hops != [] && !(request.restricted && hops[0].serviceId !in request.allowed) {
      assert forall i :: 0 <= i < |chain| - 1 ==> hops[1..][i] == hops[i + 1] && chain[1..][i] == chain[i + 1];
      PromptMatchesTheHops(hops[1..], chain[1..], request);
    }
  }

  // ---------------------------------------------------------------- registration

  /** What Bifrost is told of a service; other stands for its remaining provider settings. */
  datatype Settings = Settings(provider: string, apiKey: string, apiUrl: string, other: string)

  datatype Fallback = Fallback(id: string, settings: Settings, defaultModel: string, keyless: bool, chatOnly: bool, outputTokenLimit: int)

  datatype ProviderAccount = ProviderAccount(settings: Settings, name: string, keyless: bool, chatOnly: bool, outputTokenLimit: int)

  function RegisteredName(a: ProviderAccount): string {
    if a.name != "" then a.name else a.settings.provider
  }

  predicate IsCustom(a: ProviderAccount) {
    a.name != "" && a.name != a.settings.provider
  }

  function CustomProviderName(base: string, serviceId: string): string {
    base + "::" + serviceId
  }

  /** First-registered accounts, by registered name. */
  class MultiProviderAccount {
    var entries: map<string, ProviderAccount>
    var order: seq<string>

    constructor ()
      ensures entries == map[] && order == []
    {
      entries, order := map[], [];
    }

    method AddProvider(entry: ProviderAccount)
      modifies this
      ensures var name := RegisteredName(entry);
              if name in old(entries) then entries == old(entries) && order == old(order)
              else entries == old(entries)[name := entry] && order == old(order) + [name]
    {
      var name := RegisteredName(entry);
      if name in entries { return; }
      entries := entries[name := entry];
      order := order + [name];
    }
  }

  datatype RegistrationError = CannotHostSecond(id: string) | AlreadyRegistered(id: string)

  /** Whether a fallback must get a custom provider slot of its own. */
  predicate NeedsSlot(fb: Fallback, used: set<string>, capable: set<string>) {
    fb.settings.provider in used || fb.chatOnly || (fb.keyless && fb.settings.provider in capable)
  }

  function SlotName(fb: Fallback, used: set<string>, capable: set<string>): string {
    if NeedsSlot(fb, used, capable) then CustomProviderName(fb.settings.provider, fb.id) else fb.settings.provider
  }

  function Account(fb: Fallback, used: set<string>, capable: set<string>): ProviderAccount {
    var slot := NeedsSlot(fb, used, capable);
    ProviderAccount(fb.settings, if slot then CustomProviderName(fb.settings.provider, fb.id) else "", fb.keyless,
                    slot && fb.chatOnly, fb.outputTokenLimit)
  }

  /** Everything registered so far is found under its own name with its own settings. */
  predicate Registered(primary: Settings, fallbacks: seq<Fallback>, hops: seq<Hop>, entries: map<string, ProviderAccount>, order: seq<string>,
                       capable: set<string>)
  {
    && |hops| == |fallbacks|
    && order == [primary.provider] + Providers(hops)
    && Distinct(order)
    && primary.provider in entries && entries[primary.provider] == ProviderAccount(primary, "", false, false, 0)
    && (forall i :: 0 <= i < |hops| ==> HopRegistered(fallbacks[i], hops[i], entries, capable))
    && (forall name :: name in order ==> name in entries)
    && (forall name :: name in entries ==> name in order)
  }

  function Providers(hops: seq<Hop>): (names: seq<string>)
    ensures |names| == |hops| && forall i :: 0 <= i < |hops| ==> names[i] == hops[i].provider
  {
    seq(|hops|, i requires 0 <= i < |hops| => hops[i].provider)
  }

  /** The hop's name leads to the fallback's own settings, in a slot of its own when it is chat
      only or needs no key. */
  predicate HopRegistered(fb: Fallback, hop: Hop, entries: map<string, ProviderAccount>, capable: set<string>) {
    && hop.serviceId == fb.id && hop.model == fb.defaultModel
    && hop.provider in entries
    && var a := entries[hop.provider];
       && a.settings == fb.settings && RegisteredName(a) == hop.provider
       && a.keyless == fb.keyless && a.outputTokenLimit == fb.outputTokenLimit
       && a.chatOnly == fb.chatOnly
       && (fb.chatOnly || (fb.keyless && fb.settings.provider in capable) ==> IsCustom(a))
       && (IsCustom(a) ==> fb.settings.provider in capable)
  }

  lemma CustomNameIsCustom(base: string, serviceId: string)
    ensures CustomProviderName(base, serviceId) != base && CustomProviderName(base, serviceId) != ""
    ensures ':' in CustomProviderName(base, serviceId)
  {
    var name := CustomProviderName(base, serviceId);
    assert |name| > |base| && name[|base|] == ':';
  }

  /** Custom names tell services apart when provider names have no colon. */
  lemma CustomNamesAreUnique(base: string, id: string, base': string, id': string)
    requires ':' !in base && ':' !in base' && CustomProviderName(base, id) == CustomProviderName(base', id')
    ensures base == base' && id == id'
  {
    var name, name' := CustomProviderName(base, id), CustomProviderName(base', id');
    assert name[|base|] == ':' && name'[|base'|] == ':';
    assert forall k :: 0 <= k < |base| ==> name[k] == base[k] && base[k] != ':';
    assert forall k :: 0 <= k < |base'| ==> name'[k] == base'[k] && base'[k] != ':';
    assert |base| == |base'|;
    assert name[..|base|] == base && name'[..|base|] == base';
    assert name[|base| + 2..] == id && name'[|base| + 2..] == id';
  }

  /** Adding one more hop under an unused name. */
  lemma OneMoreRegistered(primary: Settings, fallbacks: seq<Fallback>, i: nat, hops: seq<Hop>, entries: map<string, ProviderAccount>,
                          order: seq<string>, capable: set<string>, hop: Hop, entry: ProviderAccount)
    requires i < |fallbacks| && Registered(primary, fallbacks[..i], hops, entries, order, capable)
    requires hop.provider !in entries && HopRegistered(fallbacks[i], hop, entries[hop.provider := entry], capable)
    ensures Registered(primary, fallbacks[..i + 1], hops + [hop], entries[hop.provider := entry], order + [hop.provider], capable)
  {
    var more, entries' := hops + [hop], entries[hop.provider := entry];
    OneMoreHop(fallbacks, i, hops, entries, capable, hop, entry);
    OneMoreName(order, hop.provider);
    assert Providers(more) == Providers(hops) + [hop.provider];
    assert [primary.provider] + Providers(more) == order + [hop.provider];
  }

  lemma OneMoreHop(fallbacks: seq<Fallback>, i: nat, hops: seq<Hop>, entries: map<string, ProviderAccount>, capable: set<string>,
                   hop: Hop, entry: ProviderAccount)
    requires |hops| == i < |fallbacks| && hop.provider !in entries
    requires forall k :: 0 <= k < i ==> HopRegistered(fallbacks[..i][k], hops[k], entries, capable)
    requires HopRegistered(fallbacks[i], hop, entries[hop.provider := entry], capable)
    ensures forall k :: 0 <= k < i + 1 ==>
              HopRegistered(fallbacks[..i + 1][k], (hops + [hop])[k], entries[hop.provider := entry], capable)
  {
    forall k | 0 <= k < i + 1
      ensures HopRegistered(fallbacks[..i + 1][k], (hops + [hop])[k], entries[hop.provider := entry], capable)
    {
      if k < i { assert HopRegistered(fallbacks[..i][k], hops[k], entries, capable); }
    }
  }

  lemma OneMoreName(order: seq<string>, name: string)
    requires Distinct(order) && name !in order
    ensures Distinct(order + [name])
  {
    var longer := order + [name];
    forall a, b | 0 <= a < b < |longer| ensures longer[a] != longer[b] {
      if b == |order| { assert longer[a] in order; }
    }
  }

  lemma AccountIsTheHops(fb: Fallback, used: set<string>, capable: set<string>, entries: map<string, ProviderAccount>)
    requires NeedsSlot(fb, used, capable) ==> fb.settings.provider in capable
    ensures var name := SlotName(fb, used, capable);
            && RegisteredName(Account(fb, used, capable)) == name
            && HopRegistered(fb, Hop(name, fb.defaultModel, fb.id), entries[name := Account(fb, used, capable)], capable)
  {
    CustomNameIsCustom(fb.settings.provider, fb.id);
  }

  /** Provider names without a colon, which custom names have, and different service IDs. */
  predicate Plain(primary: Settings, fallbacks: seq<Fallback>) {
    && ':' !in primary.provider
    && (forall i :: 0 <= i < |fallbacks| ==> ':' !in fallbacks[i].settings.provider)
    && (forall i, j :: 0 <= i < j < |fallbacks| ==> fallbacks[i].id != fallbacks[j].id)
  }

  /** The provider can only be registered once and plainly, and this fallback needs more. */
  predicate Unhostable(primary: Settings, fallbacks: seq<Fallback>, i: nat, capable: set<string>)
    requires i < |fallbacks|
  {
    var fb := fallbacks[i];
    fb.settings.provider !in capable &&
    (fb.chatOnly || fb.settings.provider == primary.provider || exists j :: 0 <= j < i && fallbacks[j].settings.provider == fb.settings.provider)
  }

  /** Where the names in use come from, and that a provider with one place has it taken. */
  predicate Origins(used: set<string>, primary: Settings, fallbacks: seq<Fallback>, i: nat, capable: set<string>)
    requires i <= |fallbacks|
  {
    && primary.provider in used
    && (forall name :: name in used ==>
          name == primary.provider || exists k :: 0 <= k < i && NameOf(name, fallbacks[k]))
    && (forall k :: 0 <= k < i && fallbacks[k].settings.provider !in capable ==> fallbacks[k].settings.provider in used)
  }

  predicate NameOf(name: string, fb: Fallback) {
    name == fb.settings.provider || name == CustomProviderName(fb.settings.provider, fb.id)
  }

  lemma PlainNameInUse(used: set<string>, primary: Settings, fallbacks: seq<Fallback>, i: nat, capable: set<string>)
    requires i < |fallbacks| && Plain(primary, fallbacks) && Origins(used, primary, fallbacks, i, capable)
    ensures NeedsSlot(fallbacks[i], used, capable) && fallbacks[i].settings.provider !in capable <==>
            Unhostable(primary, fallbacks, i, capable)
  {
    var fb := fallbacks[i];
    var name := fb.settings.provider;
    if name in used && name != primary.provider {
      var k :| 0 <= k < i && NameOf(name, fallbacks[k]);
      assert fallbacks[k].settings.provider == name;
    }
  }

  lemma CustomNameIsUnused(used: set<string>, primary: Settings, fallbacks: seq<Fallback>, i: nat, capable: set<string>)
    requires i < |fallbacks| && Plain(primary, fallbacks) && Origins(used, primary, fallbacks, i, capable)
    ensures CustomProviderName(fallbacks[i].settings.provider, fallbacks[i].id) !in used
  {
    var fb := fallbacks[i];
    var name := CustomProviderName(fb.settings.provider, fb.id);
    if name in used {
      var k :| 0 <= k < i && NameOf(name, fallbacks[k]);
      CustomNamesAreUnique(fb.settings.provider, fb.id, fallbacks[k].settings.provider, fallbacks[k].id);
    }
  }

  lemma OriginsGrow(used: set<string>, primary: Settings, fallbacks: seq<Fallback>, i: nat, capable: set<string>)
    requires i < |fallbacks| && Origins(used, primary, fallbacks, i, capable)
    requires NeedsSlot(fallbacks[i], used, capable) ==> fallbacks[i].settings.provider in capable
    ensures Origins(used + {SlotName(fallbacks[i], used, capable)}, primary, fallbacks, i + 1, capable)
  {
    var added := SlotName(fallbacks[i], used, capable);
    forall name | name in used + {added}
      ensures name == primary.provider || exists k :: 0 <= k < i + 1 && NameOf(name, fallbacks[k])
    {
      if name == added { assert NameOf(name, fallbacks[i]); }
    }
  }

  predicate NoneUnhostable(primary: Settings, fallbacks: seq<Fallback>, n: nat, capable: set<string>)
    requires n <= |fallbacks|
  {
    forall k :: 0 <= k < n ==> !Unhostable(primary, fallbacks, k, capable)
  }

  lemma HopAdded(primary: Settings, fallbacks: seq<Fallback>, i: nat, hops: seq<Hop>, entries: map<string, ProviderAccount>,
                 order: seq<string>, capable: set<string>, used: set<string>)
    requires i < |fallbacks| && Registered(primary, fallbacks[..i], hops, entries, order, capable) && used == entries.Keys
    requires NeedsSlot(fallbacks[i], used, capable) ==> fallbacks[i].settings.provider in capable
    requires SlotName(fallbacks[i], used, capable) !in used
    ensures var fb := fallbacks[i];
            var name, entry := SlotName(fb, used, capable), Account(fb, used, capable);
            && RegisteredName(entry) == name
            && Registered(primary, fallbacks[..i + 1], hops + [Hop(name, fb.defaultModel, fb.id)], entries[name := entry], order + [name], capable)
  {
    var fb := fallbacks[i];
    var name := SlotName(fb, used, capable);
    AccountIsTheHops(fb, used, capable, entries);
    OneMoreRegistered(primary, fallbacks, i, hops, entries, order, capable, Hop(name, fb.defaultModel, fb.id), Account(fb, used, capable));
  }

  /** Registers the primary and every fallback, or fails. With distinct service IDs and plain
      provider names it fails exactly when some fallback needs a second or special instance of a
      provider that cannot host one. */
  method New(primary: Settings, fallbacks: seq<Fallback>, capable: set<string>)
    returns (r: Result<seq<Hop>, RegistrationError>, account: MultiProviderAccount)
    ensures fresh(account)
    ensures r.Ok? ==> Registered(primary, fallbacks, r.value, account.entries, account.order, capable)
    ensures Plain(primary, fallbacks) ==>
              (r.Err? <==> exists i :: 0 <= i < |fallbacks| && Unhostable(primary, fallbacks, i, capable))
  {
    account := new MultiProviderAccount();
    account.AddProvider(ProviderAccount(primary, "", false, false, 0));
    var used := {primary.provider};
    var hops: seq<Hop> := [];
    assert Providers([]) == [];
    assert NoneUnhostable(primary, fallbacks, 0, capable);
    for i := 0 to |fallbacks|
      invariant fresh(account)
      invariant Registered(primary, fallbacks[..i], hops, account.entries, account.order, capable)
      invariant used == account.entries.Keys
      invariant Origins(used, primary, fallbacks, i, capable)
      invariant Plain(primary, fallbacks) ==> NoneUnhostable(primary, fallbacks, i, capable)
    {
      var fb := fallbacks[i];
      if Plain(primary, fallbacks) {
        PlainNameInUse(used, primary, fallbacks, i, capable);
        CustomNameIsUnused(used, primary, fallbacks, i, capable);
      }
      if NeedsSlot(fb, used, capable) && fb.settings.provider !in capable { return Err(CannotHostSecond(fb.id)), account; }
      var name := SlotName(fb, used, capable);
      if name in used { return Err(AlreadyRegistered(fb.id)), account; }
      var entry := Account(fb, used, capable);
      HopAdded(primary, fallbacks, i, hops, account.entries, account.order, capable, used);
      OriginsGrow(used, primary, fallbacks, i, capable);
      account.AddProvider(entry);
      used := used + {name};
      hops := hops + [Hop(name, fb.defaultModel, fb.id)];
    }
    assert fallbacks[..|fallbacks|] == fallbacks;
    r := Ok(hops);
  }
}
