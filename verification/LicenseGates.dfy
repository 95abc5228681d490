/**
 The license check of a configuration about to be saved (config/license_gates.go): what a
 save newly turns on or increases must be allowed by the license level.
 */
module LicenseGates {
  import opened Wrappers
  import opened GoStrings
  import opened LLMServices
  import opened Licenses

  datatype ToolPolicy = Ask | AutoRunInDM | AutoRunEverywhere | OtherPolicy(name: string)

  datatype Tool = Tool(name: string, policy: ToolPolicy)

  datatype UserAccess = AllUsers | AllowUsers | BlockUsers | NoUsers | AttributeBased

  datatype Agent = Agent(id: string, allChannels: bool, userAccess: UserAccess, hasLists: bool,
                         useServiceAccountAuth: bool, providerWebSearch: bool)

  /** An agent that is not stored yet. */
  const NO_AGENT := Agent("", true, AllUsers, false, false, false)

  datatype Server = Server(id: string, baseUrl: string, enabled: bool, headers: map<string, string>, tools: seq<Tool>)

  const NO_SERVER := Server("", "", false, map[], [])

  datatype PluginServer = PluginServer(pluginId: string, enabled: bool, tools: seq<Tool>)

  const NO_PLUGIN := PluginServer("", false, [])

  /** One for each setting that is only checked for being turned on. */
  datatype Flag = TokenLogging | ChannelWebSearch | OwnWebSearch | EmbeddingSearch | CallSummary | Transcripts | PluginServerOn

  datatype Config = Config(
    flags: set<Flag>,
    embeddedTools: seq<Tool>,
    services: seq<ServiceConfig>,
    agents: seq<Agent>,
    servers: seq<Server>,
    plugins: seq<PluginServer>)

  const EMPTY := Config({}, [], [], [], [], [])

  /** The product's default policy of a tool, by its server's origin; Ask where there is none. */
  type Defaults = (string, string) -> ToolPolicy

  // ---------------------------------------------------------------- one item

  datatype Gate = Gate(newlyOn: bool, capability: Capability)

  predicate HasAccessControls(a: Agent) {
    !a.allChannels || a.hasLists || a.userAccess in {AllowUsers, BlockUsers, NoUsers}
  }

  function ToolPolicyReach(p: ToolPolicy): nat {
    if p.AutoRunEverywhere? then 2 else if p.AutoRunInDM? then 1 else 0
  }

  predicate HeadersNonEmpty(headers: map<string, string>) {
    exists k :: k in headers && TrimSpace(k) != "" && TrimSpace(headers[k]) != ""
  }

  /** The last item with each key; items without a key are skipped. */
  function LastByKey<T>(items: seq<T>, key: T -> string): (m: map<string, T>)
    ensures forall k :: k in m ==> k != "" && m[k] in items && key(m[k]) == k
    ensures forall x :: x in items && key(x) != "" ==> key(x) in m
  {
    if items == [] then map[]
    else
      var last := items[|items| - 1];
      assert items == items[..|items| - 1] + [last];
      var before := LastByKey(items[..|items| - 1], key);
      if key(last) != "" then before[key(last) := last] else before
  }

  method ByKey<T>(items: seq<T>, key: T -> string) returns (m: map<string, T>)
    ensures m == LastByKey(items, key)
  {
    m := map[];
    for i := 0 to |items|
      invariant m == LastByKey(items[..i], key)
    {
      assert items[..i + 1][..i] == items[..i];
      var k := key(items[i]);
      if k != "" { m := m[k := items[i]]; }
    }
    assert items[..|items|] == items;
  }

  /** The item found for a key is the last one that has it, at index i. */
  lemma {:induction false} LastByKeyIsTheLast<T>(items: seq<T>, key: T -> string, k: string) returns (i: int)
    requires k != ""
    ensures -1 <= i < |items| && (k in LastByKey(items, key) <==> i >= 0)
    ensures i >= 0 ==> IsLastWith(items, key, k, i) && LastByKey(items, key)[k] == items[i]
    ensures i < 0 ==> forall j :: 0 <= j < |items| ==> key(items[j]) != k
  {
    if items == [] { return -1; }
    var n := |items| - 1;
    if key(items[n]) == k { return n; }
    i := LastByKeyIsTheLast(items[..n], key, k);
    LastStays(items, items[..n], key, k, i);
  }

  lemma LastStays<T>(items: seq<T>, front: seq<T>, key: T -> string, k: string, i: int)
    requires items != [] && front == items[..|items| - 1] && -1 <= i < |front| && key(items[|items| - 1]) != k
    requires if i >= 0 then IsLastWith(front, key, k, i) else forall j :: 0 <= j < |front| ==> key(front[j]) != k
    ensures if i >= 0 then front[i] == items[i] && IsLastWith(items, key, k, i) else forall j :: 0 <= j < |items| ==> key(items[j]) != k
  {
    forall j | i < j < |items| ensures key(items[j]) != k {
      if j < |front| { assert key(front[j]) != k; }
    }
  }

  predicate IsLastWith<T>(items: seq<T>, key: T -> string, k: string, i: nat)
    requires i < |items|
  {
    key(items[i]) == k && forall j :: i < j < |items| ==> key(items[j]) != k
  }

  predicate UniqueKeys<T>(items: seq<T>, key: T -> string) {
    forall i, j :: 0 <= i < j < |items| ==> key(items[i]) != key(items[j])
  }

  predicate NoBlankKeys<T(==)>(items: seq<T>, key: T -> string) {
    forall x :: x in items ==> key(x) != ""
  }

  lemma FoundByKey<T>(items: seq<T>, key: T -> string, x: T)
    requires UniqueKeys(items, key) && x in items && key(x) != ""
    ensures LastByKey(items, key)[key(x)] == x
  {
    var y := LastByKey(items, key)[key(x)];
    var i :| 0 <= i < |items| && items[i] == x;
    var j :| 0 <= j < |items| && items[j] == y;
    assert !(i < j) && !(j < i);
  }

  /** The reach that the last stored policy of a tool has, or else its default. */
  function Baseline(tools: seq<Tool>, name: string, fallback: ToolPolicy): nat {
    if tools == [] then ToolPolicyReach(fallback)
    else
      var last := tools[|tools| - 1];
      if last.name == name then ToolPolicyReach(last.policy) else Baseline(tools[..|tools| - 1], name, fallback)
  }

  predicate PoliciesNewlyAuto(prev: seq<Tool>, next: seq<Tool>, origin: string, defaults: Defaults) {
    exists i :: 0 <= i < |next| && ToolPolicyReach(next[i].policy) > Baseline(prev, next[i].name, defaults(origin, next[i].name))
  }

  method ToolPoliciesNewlyAuto(prev: seq<Tool>, next: seq<Tool>, origin: string, defaults: Defaults) returns (newlyAuto: bool)
    ensures newlyAuto <==> PoliciesNewlyAuto(prev, next, origin, defaults)
  {
    var prevReach: map<string, nat> := map[];
    for i := 0 to |prev|
      invariant forall name, d :: Baseline(prev[..i], name, d) == if name in prevReach then prevReach[name] else ToolPolicyReach(d)
    {
      assert prev[..i + 1][..i] == prev[..i];
      prevReach := prevReach[prev[i].name := ToolPolicyReach(prev[i].policy)];
    }
    assert prev[..|prev|] == prev;
    for i := 0 to |next|
      invariant forall k :: 0 <= k < i ==> ToolPolicyReach(next[k].policy) <= Baseline(prev, next[k].name, defaults(origin, next[k].name))
    {
      var d := defaults(origin, next[i].name);
      var baseline := if next[i].name in prevReach then prevReach[next[i].name] else ToolPolicyReach(d);
      assert baseline == Baseline(prev, next[i].name, d);
      if ToolPolicyReach(next[i].policy) > baseline { return true; }
    }
    return false;
  }

  // ---------------------------------------------------------------- the gates of a save

  predicate On(from: Config, next: Config, f: Flag) {
    f in next.flags && f !in from.flags
  }

  function FlagGates(from: Config, next: Config, defaults: Defaults): seq<Gate> {
    [ Gate(On(from, next, TokenLogging), TokenAccounting),
      Gate(On(from, next, ChannelWebSearch), ProviderWebSearch),
      Gate(On(from, next, OwnWebSearch), SovereignWebSearch),
      Gate(On(from, next, EmbeddingSearch), SemanticSearch),
      Gate(On(from, next, CallSummary) || On(from, next, Transcripts), Meetings),
      Gate(On(from, next, PluginServerOn), RemoteMCP),
      Gate(PoliciesNewlyAuto(from.embeddedTools, next.embeddedTools, EMBEDDED_ORIGIN, defaults), ToolApprovalPolicies) ]
  }

  const EMBEDDED_ORIGIN := "embedded://mattermost"

  function PluginServerOrigin(pluginId: string): string {
    "plugin://" + pluginId
  }

  function ServiceGates(prev: Services, s: ServiceConfig): seq<Gate> {
    var prevFallback := if s.id in prev then prev[s.id].fallbackServiceId else "";
    [Gate(s.fallbackServiceId != "" && s.fallbackServiceId != prevFallback, ModelFallback)]
  }

  function AgentGates(prev: Agent, next: Agent): seq<Gate> {
    [ Gate(next.userAccess.AttributeBased? && !prev.userAccess.AttributeBased?, AttributeBasedAccess),
      Gate(HasAccessControls(next) && !HasAccessControls(prev), AgentAccessControls),
      Gate(next.useServiceAccountAuth && !prev.useServiceAccountAuth, MCPServiceAccount),
      Gate(next.providerWebSearch && !prev.providerWebSearch, ProviderWebSearch) ]
  }

  function StoredAgentGates(prev: map<string, Agent>, next: Agent): seq<Gate> {
    AgentGates(if next.id in prev then prev[next.id] else NO_AGENT, next)
  }

  function ServerGates(prevServers: map<string, Server>, next: Server, defaults: Defaults): seq<Gate> {
    var found := next.id in prevServers;
    var prev := if found then prevServers[next.id] else NO_SERVER;
    [ Gate(!found || (next.enabled && !prev.enabled), RemoteMCP),
      Gate(HeadersNonEmpty(next.headers) && !HeadersNonEmpty(prev.headers), MCPServiceAccount),
      Gate(PoliciesNewlyAuto(prev.tools, next.tools, next.baseUrl, defaults), ToolApprovalPolicies) ]
  }

  function PluginGates(prevPlugins: map<string, PluginServer>, next: PluginServer, defaults: Defaults): seq<Gate> {
    var found := next.pluginId in prevPlugins;
    var prev := if found then prevPlugins[next.pluginId] else NO_PLUGIN;
    [ Gate(found && next.enabled && !prev.enabled, RemoteMCP),
      Gate(PoliciesNewlyAuto(prev.tools, next.tools, PluginServerOrigin(next.pluginId), defaults), ToolApprovalPolicies) ]
  }

  function GatesOf<T>(items: seq<T>, gates: T -> seq<Gate>): seq<Gate> {
    if items == [] then [] else GatesOf(items[..|items| - 1], gates) + gates(items[|items| - 1])
  }

  function ServiceId(s: ServiceConfig): string { s.id }
  function AgentId(a: Agent): string { a.id }
  function ServerId(s: Server): string { s.id }
  function PluginId(p: PluginServer): string { p.pluginId }

  function ServiceGatesFor(prev: Services): ServiceConfig -> seq<Gate> {
    s => ServiceGates(prev, s)
  }

  function AgentGatesFor(prev: map<string, Agent>): Agent -> seq<Gate> {
    a => StoredAgentGates(prev, a)
  }

  function ServerGatesFor(prev: map<string, Server>, defaults: Defaults): Server -> seq<Gate> {
    s => ServerGates(prev, s, defaults)
  }

  function PluginGatesFor(prev: map<string, PluginServer>, defaults: Defaults): PluginServer -> seq<Gate> {
    p => PluginGates(prev, p, defaults)
  }

  function PrevServices(from: Config): Services {
    LastByKey(from.services, ServiceId)
  }

  function PrevAgents(from: Config): map<string, Agent> {
    LastByKey(from.agents, AgentId)
  }

  function PrevServers(from: Config): map<string, Server> {
    LastByKey(from.servers, ServerId)
  }

  function PrevPlugins(from: Config): map<string, PluginServer> {
    LastByKey(from.plugins, PluginId)
  }

  function AllGates(from: Config, next: Config, defaults: Defaults): seq<Gate> {
    var prevServices, prevAgents, prevServers, prevPlugins := PrevServices(from), PrevAgents(from), PrevServers(from), PrevPlugins(from);
    FlagGates(from, next, defaults)
    + GatesOf(next.services, ServiceGatesFor(prevServices))
    + GatesOf(next.agents, AgentGatesFor(prevAgents))
    + GatesOf(next.servers, ServerGatesFor(prevServers, defaults))
    + GatesOf(next.plugins, PluginGatesFor(prevPlugins, defaults))
  }

  datatype Denial = Denied(capability: Capability) | AgentLimit

  function FirstDenied(gates: seq<Gate>, level: Level): (denial: Option<Denial>)
    ensures denial.None? <==> forall g :: g in gates && g.newlyOn ==> Allows(level, g.capability)
    ensures denial.Some? ==> exists i :: 0 <= i < |gates| && IsFirstDenied(gates, i, level) && denial.value == Denied(gates[i].capability)
  {
    if gates == [] then None
    else if gates[0].newlyOn && !Allows(level, gates[0].capability) then Some(Denied(gates[0].capability))
    else
      assert gates == [gates[0]] + gates[1..];
      LaterIsFirst(gates, level);
      FirstDenied(gates[1..], level)
  }

  /** Gate i is on and not allowed, and none before it. */
  predicate IsFirstDenied(gates: seq<Gate>, i: nat, level: Level)
    requires i < |gates|
  {
    && gates[i].newlyOn && !Allows(level, gates[i].capability)
    && forall j :: 0 <= j < i ==> !gates[j].newlyOn || Allows(level, gates[j].capability)
  }

  lemma LaterIsFirst(gates: seq<Gate>, level: Level)
    requires gates != [] && (!gates[0].newlyOn || Allows(level, gates[0].capability))
    ensures forall i :: 0 <= i < |gates| - 1 && IsFirstDenied(gates[1..], i, level) ==> IsFirstDenied(gates, i + 1, level)
  {
    forall i | 0 <= i < |gates| - 1 && IsFirstDenied(gates[1..], i, level) ensures IsFirstDenied(gates, i + 1, level) {
      assert forall j :: 0 < j < i + 1 ==> gates[j] == gates[1..][j - 1];
    }
  }

  /** The outcome of a save. A first save is checked against the empty configuration. */
  function Checked(prev: Option<Config>, next: Config, level: Level, defaults: Defaults): Option<Denial> {
    var from := if prev.Some? then prev.value else EMPTY;
    if Exceeds(|next.services|, ServiceLimitFor(level)) && |next.services| > |from.services| then Some(Denied(MultipleLLMServices))
    else if Exceeds(|next.agents|, AgentLimitFor(level)) && |next.agents| > |from.agents| then Some(AgentLimit)
    else FirstDenied(AllGates(from, next, defaults), level)
  }

  predicate Accepted(from: Config, next: Config, level: Level, defaults: Defaults) {
    Checked(Some(from), next, level, defaults).None?
  }

  // ---------------------------------------------------------------- the check

  method AppendGates<T>(gates: seq<Gate>, items: seq<T>, gatesOf: T -> seq<Gate>) returns (gates': seq<Gate>)
    ensures gates' == gates + GatesOf(items, gatesOf)
  {
    gates' := gates;
    for i := 0 to |items|
      invariant gates' == gates + GatesOf(items[..i], gatesOf)
    {
      assert items[..i + 1][..i] == items[..i];
      gates' := gates' + gatesOf(items[i]);
    }
    assert items[..|items|] == items;
  }

  method FindDenied(gates: seq<Gate>, level: Level) returns (denial: Option<Denial>)
    ensures denial == FirstDenied(gates, level)
  {
    for i := 0 to |gates|
      invariant FirstDenied(gates, level) == FirstDenied(gates[i..], level)
    {
      assert gates[i..][1..] == gates[i + 1..];
      if gates[i].newlyOn && !Allows(level, gates[i].capability) { return Some(Denied(gates[i].capability)); }
    }
    return None;
  }

  method CollectGates(from: Config, next: Config, defaults: Defaults) returns (gates: seq<Gate>)
    ensures gates == AllGates(from, next, defaults)
  {
    gates := FlagGates(from, next, defaults);
    var prevServices := ByKey(from.services, ServiceId);
    gates := AppendGates(gates, next.services, ServiceGatesFor(prevServices));
    var prevAgents := ByKey(from.agents, AgentId);
    gates := AppendGates(gates, next.agents, AgentGatesFor(prevAgents));
    var prevServers := ByKey(from.servers, ServerId);
    gates := AppendGates(gates, next.servers, ServerGatesFor(prevServers, defaults));
    var prevPlugins := ByKey(from.plugins, PluginId);
    gates := AppendGates(gates, next.plugins, PluginGatesFor(prevPlugins, defaults));
  }

  method ValidateLicenseTransition(prev: Option<Config>, next: Config, level: Level, defaults: Defaults) returns (denial: Option<Denial>)
    ensures denial == Checked(prev, next, level, defaults)
  {
    var from := if prev.Some? then prev.value else EMPTY;
    var serviceLimit := ServiceLimitFor(level);
    if serviceLimit.Some? && |next.services| > serviceLimit.value && |next.services| > |from.services| {
      return Some(Denied(MultipleLLMServices));
    }
    var agentLimit := AgentLimitFor(level);
    if agentLimit.Some? && |next.agents| > agentLimit.value && |next.agents| > |from.agents| {
      return Some(AgentLimit);
    }
    var gates := CollectGates(from, next, defaults);
    denial := FindDenied(gates, level);
  }

  // ---------------------------------------------------------------- what acceptance means

  predicate Passes(g: Gate, level: Level) {
    g.newlyOn ==> Allows(level, g.capability)
  }

  predicate AllPass(gates: seq<Gate>, level: Level) {
    forall i :: 0 <= i < |gates| ==> Passes(gates[i], level)
  }

  lemma PassBoth(a: seq<Gate>, b: seq<Gate>, level: Level)
    ensures AllPass(a + b, level) <==> AllPass(a, level) && AllPass(b, level)
  {
    var both := a + b;
    if AllPass(both, level) {
      forall i | 0 <= i < |a| ensures Passes(a[i], level) { assert Passes(both[i], level); }
      forall i | 0 <= i < |b| ensures Passes(b[i], level) { assert Passes(both[|a| + i], level); }
    }
  }

  lemma {:induction false} PassItems<T>(items: seq<T>, gates: T -> seq<Gate>, level: Level)
    ensures AllPass(GatesOf(items, gates), level) <==> forall i :: 0 <= i < |items| ==> AllPass(gates(items[i]), level)
  {
    if items != [] {
      var n := |items| - 1;
      PassItems(items[..n], gates, level);
      PassBoth(GatesOf(items[..n], gates), gates(items[n]), level);
      assert forall i :: 0 <= i < n ==> items[..n][i] == items[i];
    }
  }

  predicate PassFlags(from: Config, next: Config, level: Level, defaults: Defaults) {
    AllPass(FlagGates(from, next, defaults), level)
  }

  predicate PassServices(from: Config, next: Config, level: Level) {
    forall i :: 0 <= i < |next.services| ==> AllPass(ServiceGates(PrevServices(from), next.services[i]), level)
  }

  predicate PassAgents(from: Config, next: Config, level: Level) {
    forall i :: 0 <= i < |next.agents| ==> AllPass(StoredAgentGates(PrevAgents(from), next.agents[i]), level)
  }

  predicate PassServers(from: Config, next: Config, level: Level, defaults: Defaults) {
    forall i :: 0 <= i < |next.servers| ==> AllPass(ServerGates(PrevServers(from), next.servers[i], defaults), level)
  }

  predicate PassPlugins(from: Config, next: Config, level: Level, defaults: Defaults) {
    forall i :: 0 <= i < |next.plugins| ==> AllPass(PluginGates(PrevPlugins(from), next.plugins[i], defaults), level)
  }

  predicate CountsOk(from: Config, next: Config, level: Level) {
    && (Exceeds(|next.services|, ServiceLimitFor(level)) ==> |next.services| <= |from.services|)
    && (Exceeds(|next.agents|, AgentLimitFor(level)) ==> |next.agents| <= |from.agents|)
  }

  predicate PassAll(from: Config, next: Config, level: Level, defaults: Defaults) {
    && CountsOk(from, next, level)
    && PassFlags(from, next, level, defaults) && PassServices(from, next, level) && PassAgents(from, next, level)
    && PassServers(from, next, level, defaults) && PassPlugins(from, next, level, defaults)
  }

  /** A save is accepted exactly when no count grows beyond its cap and every item, whatever
      its place, passes its own gates. */
  lemma AcceptedMeans(from: Config, next: Config, level: Level, defaults: Defaults)
    ensures Accepted(from, next, level, defaults) <==> PassAll(from, next, level, defaults)
  {
    AcceptedByGates(from, next, level, defaults);
    GatesPass(from, next, level, defaults);
  }

  lemma AcceptedByGates(from: Config, next: Config, level: Level, defaults: Defaults)
    ensures Accepted(from, next, level, defaults) <==> CountsOk(from, next, level) && AllPass(AllGates(from, next, defaults), level)
  {
    NoneDenied(AllGates(from, next, defaults), level);
  }

  lemma NoneDenied(gates: seq<Gate>, level: Level)
    ensures FirstDenied(gates, level).None? <==> AllPass(gates, level)
  {
    forall g | g in gates && AllPass(gates, level) ensures Passes(g, level) { }
  }

  lemma GatesPass(from: Config, next: Config, level: Level, defaults: Defaults)
    ensures AllPass(AllGates(from, next, defaults), level) <==> (
              && PassFlags(from, next, level, defaults) && PassServices(from, next, level) && PassAgents(from, next, level)
              && PassServers(from, next, level, defaults) && PassPlugins(from, next, level, defaults))
  {
    PassItems(next.services, ServiceGatesFor(PrevServices(from)), level);
    PassItems(next.agents, AgentGatesFor(PrevAgents(from)), level);
    PassItems(next.servers, ServerGatesFor(PrevServers(from), defaults), level);
    PassItems(next.plugins, PluginGatesFor(PrevPlugins(from), defaults), level);
    PassFive(
      FlagGates(from, next, defaults),
      GatesOf(next.services, ServiceGatesFor(PrevServices(from))),
      GatesOf(next.agents, AgentGatesFor(PrevAgents(from))),
      GatesOf(next.servers, ServerGatesFor(PrevServers(from), defaults)),
      GatesOf(next.plugins, PluginGatesFor(PrevPlugins(from), defaults)), level);
  }

  lemma PassFive(a: seq<Gate>, b: seq<Gate>, c: seq<Gate>, d: seq<Gate>, e: seq<Gate>, level: Level)
    ensures AllPass(a + b + c + d + e, level) <==>
            AllPass(a, level) && AllPass(b, level) && AllPass(c, level) && AllPass(d, level) && AllPass(e, level)
  {
    PassBoth(a, b, level);
    PassBoth(a + b, c, level);
    PassBoth(a + b + c, d, level);
    PassBoth(a + b + c + d, e, level);
  }

  // ---------------------------------------------------------------- what a save newly uses

  function StoredService(from: Config, id: string): Option<ServiceConfig> {
    Lookup(LastByKey(from.services, ServiceId), id)
  }

  function StoredAgent(from: Config, id: string): Option<Agent> {
    Lookup(LastByKey(from.agents, AgentId), id)
  }

  function StoredServer(from: Config, id: string): Option<Server> {
    Lookup(LastByKey(from.servers, ServerId), id)
  }

  function StoredPlugin(from: Config, id: string): Option<PluginServer> {
    Lookup(LastByKey(from.plugins, PluginId), id)
  }

  predicate Restricts(a: Agent) {
    || !a.allChannels || a.hasLists
    || a.userAccess == AllowUsers || a.userAccess == BlockUsers || a.userAccess == NoUsers
  }

  predicate HasHeader(headers: map<string, string>) {
    exists k :: k in headers && !IsBlank(k) && !IsBlank(headers[k])
  }

  predicate RunsWider(policy: ToolPolicy, than: ToolPolicy) {
    || (policy == AutoRunEverywhere && than != AutoRunEverywhere)
    || (policy == AutoRunInDM && than != AutoRunInDM && than != AutoRunEverywhere)
  }

  /** The policy that the last stored tool of this name has, or else the default. */
  function PolicyBefore(stored: seq<Tool>, name: string, fallback: ToolPolicy): ToolPolicy {
    if stored == [] then fallback
    else if stored[|stored| - 1].name == name then stored[|stored| - 1].policy
    else PolicyBefore(stored[..|stored| - 1], name, fallback)
  }

  predicate WidensPolicies(stored: seq<Tool>, tools: seq<Tool>, origin: string, defaults: Defaults) {
    exists t :: t in tools && RunsWider(t.policy, PolicyBefore(stored, t.name, defaults(origin, t.name)))
  }

  predicate NewFlag(from: Config, next: Config, f: Flag) {
    f in next.flags && f !in from.flags
  }

  predicate AgentNewlyUses(before: Option<Agent>, a: Agent, c: Capability) {
    match c
    case ProviderWebSearch => a.providerWebSearch && (before.Some? ==> !before.value.providerWebSearch)
    case AgentAccessControls => Restricts(a) && (before.Some? ==> !Restricts(before.value))
    case MCPServiceAccount => a.useServiceAccountAuth && (before.Some? ==> !before.value.useServiceAccountAuth)
    case AttributeBasedAccess => a.userAccess == AttributeBased && (before.Some? ==> before.value.userAccess != AttributeBased)
    case _ => false
  }

  predicate ServerNewlyUses(before: Option<Server>, s: Server, c: Capability, defaults: Defaults) {
    match c
    case RemoteMCP => before.None? || (s.enabled && !before.value.enabled)
    case MCPServiceAccount => HasHeader(s.headers) && (before.Some? ==> !HasHeader(before.value.headers))
    case ToolApprovalPolicies => WidensPolicies(if before.Some? then before.value.tools else [], s.tools, s.baseUrl, defaults)
    case _ => false
  }

  predicate PluginNewlyUses(before: Option<PluginServer>, p: PluginServer, c: Capability, defaults: Defaults) {
    match c
    case RemoteMCP => before.Some? && p.enabled && !before.value.enabled
    case ToolApprovalPolicies =>
      WidensPolicies(if before.Some? then before.value.tools else [], p.tools, "plugin://" + p.pluginId, defaults)
    case _ => false
  }

  /** A setting of the whole configuration newly uses a capability. */
  predicate SettingNewlyUses(from: Config, next: Config, c: Capability, defaults: Defaults) {
    match c
    case TokenAccounting => NewFlag(from, next, TokenLogging)
    case ProviderWebSearch => NewFlag(from, next, ChannelWebSearch)
    case SovereignWebSearch => NewFlag(from, next, OwnWebSearch)
    case SemanticSearch => NewFlag(from, next, EmbeddingSearch)
    case Meetings => NewFlag(from, next, CallSummary) || NewFlag(from, next, Transcripts)
    case RemoteMCP => NewFlag(from, next, PluginServerOn)
    case ToolApprovalPolicies => WidensPolicies(from.embeddedTools, next.embeddedTools, "embedded://mattermost", defaults)
    case _ => false
  }

  predicate ServiceNewlyUses(before: Option<ServiceConfig>, s: ServiceConfig, c: Capability) {
    c == ModelFallback && s.fallbackServiceId != "" && (before.Some? ==> s.fallbackServiceId != before.value.fallbackServiceId)
  }

  /** What a save newly uses, setting by setting, service by service, and so on. */
  predicate NewlyUses(from: Config, next: Config, c: Capability, defaults: Defaults) {
    || SettingNewlyUses(from, next, c, defaults)
    || (exists i :: 0 <= i < |next.services| && ServiceNewlyUses(StoredService(from, next.services[i].id), next.services[i], c))
    || (exists i :: 0 <= i < |next.agents| && AgentNewlyUses(StoredAgent(from, next.agents[i].id), next.agents[i], c))
    || (exists i :: 0 <= i < |next.servers| && ServerNewlyUses(StoredServer(from, next.servers[i].id), next.servers[i], c, defaults))
    || (exists i :: 0 <= i < |next.plugins| && PluginNewlyUses(StoredPlugin(from, next.plugins[i].pluginId), next.plugins[i], c, defaults))
  }

  /** A gate for c is on. */
  predicate Raises(gates: seq<Gate>, c: Capability) {
    exists i :: 0 <= i < |gates| && gates[i].newlyOn && gates[i].capability == c
  }

  lemma {:induction false} BaselineIsReach(stored: seq<Tool>, name: string, fallback: ToolPolicy)
    ensures Baseline(stored, name, fallback) == ToolPolicyReach(PolicyBefore(stored, name, fallback))
  {
    if stored != [] { BaselineIsReach(stored[..|stored| - 1], name, fallback); }
  }

  lemma WidensMeans(stored: seq<Tool>, tools: seq<Tool>, origin: string, defaults: Defaults)
    ensures PoliciesNewlyAuto(stored, tools, origin, defaults) <==> WidensPolicies(stored, tools, origin, defaults)
  {
    forall i | 0 <= i < |tools|
      ensures ToolPolicyReach(tools[i].policy) > Baseline(stored, tools[i].name, defaults(origin, tools[i].name)) <==>
              RunsWider(tools[i].policy, PolicyBefore(stored, tools[i].name, defaults(origin, tools[i].name)))
    {
      BaselineIsReach(stored, tools[i].name, defaults(origin, tools[i].name));
    }
    if PoliciesNewlyAuto(stored, tools, origin, defaults) {
      var i :| 0 <= i < |tools| && ToolPolicyReach(tools[i].policy) > Baseline(stored, tools[i].name, defaults(origin, tools[i].name));
      assert tools[i] in tools;
    }
  }

  lemma SettingsRaise(from: Config, next: Config, c: Capability, defaults: Defaults)
    ensures Raises(FlagGates(from, next, defaults), c) <==> SettingNewlyUses(from, next, c, defaults)
  {
    WidensMeans(from.embeddedTools, next.embeddedTools, EMBEDDED_ORIGIN, defaults);
    var gates := FlagGates(from, next, defaults);
    assert Raises(gates, c) <==>
      || (gates[0].newlyOn && gates[0].capability == c) || (gates[1].newlyOn && gates[1].capability == c)
      || (gates[2].newlyOn && gates[2].capability == c) || (gates[3].newlyOn && gates[3].capability == c)
      || (gates[4].newlyOn && gates[4].capability == c) || (gates[5].newlyOn && gates[5].capability == c)
      || (gates[6].newlyOn && gates[6].capability == c);
  }

  lemma ServiceRaises(from: Config, s: ServiceConfig, c: Capability)
    ensures Raises(ServiceGates(PrevServices(from), s), c) <==> ServiceNewlyUses(StoredService(from, s.id), s, c)
  {
    var gates := ServiceGates(PrevServices(from), s);
    assert Raises(gates, c) <==> gates[0].newlyOn && gates[0].capability == c;
  }

  lemma AgentRaises(from: Config, a: Agent, c: Capability)
    ensures Raises(StoredAgentGates(PrevAgents(from), a), c) <==> AgentNewlyUses(StoredAgent(from, a.id), a, c)
  {
    FourRaise(StoredAgentGates(PrevAgents(from), a), c);
  }

  lemma FourRaise(gates: seq<Gate>, c: Capability)
    requires |gates| == 4
    ensures Raises(gates, c) <==>
      || (gates[0].newlyOn && gates[0].capability == c) || (gates[1].newlyOn && gates[1].capability == c)
      || (gates[2].newlyOn && gates[2].capability == c) || (gates[3].newlyOn && gates[3].capability == c)
  {
  }

  lemma HeadersMean(headers: map<string, string>)
    ensures HeadersNonEmpty(headers) <==> HasHeader(headers)
  {
  }

  lemma ServerRaises(from: Config, s: Server, c: Capability, defaults: Defaults)
    ensures Raises(ServerGates(PrevServers(from), s, defaults), c) <==> ServerNewlyUses(StoredServer(from, s.id), s, c, defaults)
  {
    var before := StoredServer(from, s.id);
    var gates := ServerGates(PrevServers(from), s, defaults);
    WidensMeans(if before.Some? then before.value.tools else [], s.tools, s.baseUrl, defaults);
    HeadersMean(s.headers);
    HeadersMean(if before.Some? then before.value.headers else map[]);
    assert Raises(gates, c) <==>
      || (gates[0].newlyOn && gates[0].capability == c) || (gates[1].newlyOn && gates[1].capability == c)
      || (gates[2].newlyOn && gates[2].capability == c);
  }

  lemma PluginRaises(from: Config, p: PluginServer, c: Capability, defaults: Defaults)
    ensures Raises(PluginGates(PrevPlugins(from), p, defaults), c) <==> PluginNewlyUses(StoredPlugin(from, p.pluginId), p, c, defaults)
  {
    var before := StoredPlugin(from, p.pluginId);
    var gates := PluginGates(PrevPlugins(from), p, defaults);
    WidensMeans(if before.Some? then before.value.tools else [], p.tools, PluginServerOrigin(p.pluginId), defaults);
    assert Raises(gates, c) <==>
      (gates[0].newlyOn && gates[0].capability == c) || (gates[1].newlyOn && gates[1].capability == c);
  }

  lemma RaisesBoth(a: seq<Gate>, b: seq<Gate>, c: Capability)
    ensures Raises(a + b, c) <==> Raises(a, c) || Raises(b, c)
  {
    var both := a + b;
    if i :| 0 <= i < |a| && a[i].newlyOn && a[i].capability == c { assert both[i] == a[i]; }
    if i :| 0 <= i < |b| && b[i].newlyOn && b[i].capability == c { assert both[|a| + i] == b[i]; }
    if i :| 0 <= i < |both| && both[i].newlyOn && both[i].capability == c {
      if i < |a| { assert a[i] == both[i]; } else { assert b[i - |a|] == both[i]; }
    }
  }

  lemma {:induction false} ItemsRaise<T>(items: seq<T>, gates: T -> seq<Gate>, c: Capability)
    ensures Raises(GatesOf(items, gates), c) <==> exists i :: 0 <= i < |items| && Raises(gates(items[i]), c)
  {
    if items != [] {
      var n := |items| - 1;
      ItemsRaise(items[..n], gates, c);
      RaisesBoth(GatesOf(items[..n], gates), gates(items[n]), c);
      if i :| 0 <= i < n && Raises(gates(items[i]), c) { assert Raises(gates(items[..n][i]), c); }
    }
  }

  lemma AllRaise(from: Config, next: Config, c: Capability, defaults: Defaults)
    ensures Raises(AllGates(from, next, defaults), c) <==> (
              || Raises(FlagGates(from, next, defaults), c)
              || Raises(GatesOf(next.services, ServiceGatesFor(PrevServices(from))), c)
              || Raises(GatesOf(next.agents, AgentGatesFor(PrevAgents(from))), c)
              || Raises(GatesOf(next.servers, ServerGatesFor(PrevServers(from), defaults)), c)
              || Raises(GatesOf(next.plugins, PluginGatesFor(PrevPlugins(from), defaults)), c))
  {
    var a, b := FlagGates(from, next, defaults), GatesOf(next.services, ServiceGatesFor(PrevServices(from)));
    var d, e := GatesOf(next.agents, AgentGatesFor(PrevAgents(from))), GatesOf(next.servers, ServerGatesFor(PrevServers(from), defaults));
    RaisesBoth(a, b, c);
    RaisesBoth(a + b, d, c);
    RaisesBoth(a + b + d, e, c);
    RaisesBoth(a + b + d + e, GatesOf(next.plugins, PluginGatesFor(PrevPlugins(from), defaults)), c);
  }

  lemma GatesRaiseUses(from: Config, next: Config, c: Capability, defaults: Defaults)
    ensures Raises(AllGates(from, next, defaults), c) <==> NewlyUses(from, next, c, defaults)
  {
    AllRaise(from, next, c, defaults);
    SettingsRaise(from, next, c, defaults);
    ItemsRaise(next.services, ServiceGatesFor(PrevServices(from)), c);
    ItemsRaise(next.agents, AgentGatesFor(PrevAgents(from)), c);
    ItemsRaise(next.servers, ServerGatesFor(PrevServers(from), defaults), c);
    ItemsRaise(next.plugins, PluginGatesFor(PrevPlugins(from), defaults), c);
    ServicesRaise(from, next, c);
    AgentsRaise(from, next, c);
    ServersRaise(from, next, c, defaults);
    PluginsRaise(from, next, c, defaults);
  }

  lemma ServicesRaise(from: Config, next: Config, c: Capability)
    ensures forall i :: 0 <= i < |next.services| ==>
              (Raises(ServiceGatesFor(PrevServices(from))(next.services[i]), c) <==>
               ServiceNewlyUses(StoredService(from, next.services[i].id), next.services[i], c))
  {
    forall s | s in next.services { ServiceRaises(from, s, c); }
  }

  lemma AgentsRaise(from: Config, next: Config, c: Capability)
    ensures forall i :: 0 <= i < |next.agents| ==>
              (Raises(AgentGatesFor(PrevAgents(from))(next.agents[i]), c) <==>
               AgentNewlyUses(StoredAgent(from, next.agents[i].id), next.agents[i], c))
  {
    forall a | a in next.agents { AgentRaises(from, a, c); }
  }

  lemma ServersRaise(from: Config, next: Config, c: Capability, defaults: Defaults)
    ensures forall i :: 0 <= i < |next.servers| ==>
              (Raises(ServerGatesFor(PrevServers(from), defaults)(next.servers[i]), c) <==>
               ServerNewlyUses(StoredServer(from, next.servers[i].id), next.servers[i], c, defaults))
  {
    forall s | s in next.servers { ServerRaises(from, s, c, defaults); }
  }

  lemma PluginsRaise(from: Config, next: Config, c: Capability, defaults: Defaults)
    ensures forall i :: 0 <= i < |next.plugins| ==>
              (Raises(PluginGatesFor(PrevPlugins(from), defaults)(next.plugins[i]), c) <==>
               PluginNewlyUses(StoredPlugin(from, next.plugins[i].pluginId), next.plugins[i], c, defaults))
  {
    forall p | p in next.plugins { PluginRaises(from, p, c, defaults); }
  }

  /** The check in the terms of the configuration: a save is accepted exactly if no capped count
      grows beyond its cap and everything it newly uses is allowed; and what a denial names is
      the growing count, or something newly used and not allowed. */
  lemma AcceptedExactly(from: Config, next: Config, level: Level, defaults: Defaults)
    ensures Accepted(from, next, level, defaults) <==>
            && (Exceeds(|next.services|, ServiceLimitFor(level)) ==> |next.services| <= |from.services|)
            && (Exceeds(|next.agents|, AgentLimitFor(level)) ==> |next.agents| <= |from.agents|)
            && (forall c :: NewlyUses(from, next, c, defaults) ==> Allows(level, c))
    ensures var denial := Checked(Some(from), next, level, defaults);
            && (denial == Some(AgentLimit) ==> Exceeds(|next.agents|, AgentLimitFor(level)) && |next.agents| > |from.agents|)
            && (denial.Some? && denial.value.Denied? ==>
                  var c := denial.value.capability;
                  || (NewlyUses(from, next, c, defaults) && !Allows(level, c))
                  || (c == MultipleLLMServices && Exceeds(|next.services|, ServiceLimitFor(level)) && |next.services| > |from.services|))
  {
    var gates := AllGates(from, next, defaults);
    forall c ensures Raises(gates, c) <==> NewlyUses(from, next, c, defaults) { GatesRaiseUses(from, next, c, defaults); }
    RaisedAndDenied(gates, level);
  }

  lemma RaisedAndDenied(gates: seq<Gate>, level: Level)
    ensures FirstDenied(gates, level).None? <==> forall c :: Raises(gates, c) ==> Allows(level, c)
    ensures var denial := FirstDenied(gates, level);
            denial.Some? ==> denial.value.Denied? && Raises(gates, denial.value.capability) && !Allows(level, denial.value.capability)
  {
    if FirstDenied(gates, level).None? {
      forall c | Raises(gates, c) ensures Allows(level, c) {
        var i :| 0 <= i < |gates| && gates[i].newlyOn && gates[i].capability == c;
        assert gates[i] in gates;
      }
    }
  }

  // ---------------------------------------------------------------- higher levels

  /** What a level accepts, every higher level accepts. */
  lemma AcceptanceIsMonotone(prev: Option<Config>, next: Config, level: Level, higher: Level, defaults: Defaults)
    requires level <= higher && Checked(prev, next, level, defaults).None?
    ensures Checked(prev, next, higher, defaults).None?
  {
    var from := if prev.Some? then prev.value else EMPTY;
    LevelsAreOrdered(level, higher, RemoteMCP, |next.services|);
    LevelsAreOrdered(level, higher, RemoteMCP, |next.agents|);
    forall g | g in AllGates(from, next, defaults) && g.newlyOn ensures Allows(higher, g.capability) {
      LevelsAreOrdered(level, higher, g.capability, 0);
    }
  }

  // ---------------------------------------------------------------- what is absent stays absent

  predicate Within(tools: seq<Tool>, origin: string, defaults: Defaults) {
    forall i :: 0 <= i < |tools| ==> ToolPolicyReach(tools[i].policy) <= ToolPolicyReach(defaults(origin, tools[i].name))
  }

  /** A configuration uses a capability somewhere. The tool policies of remote servers are
      left out, see MovingIsNotGated and OnlyStoredToolsGoBeyond, and so are plugin servers that
      are turned on, see OneMorePluginServer. */
  predicate Uses(cfg: Config, c: Capability, defaults: Defaults) {
    match c
    case ProviderWebSearch => ChannelWebSearch in cfg.flags || exists i :: 0 <= i < |cfg.agents| && cfg.agents[i].providerWebSearch
    case AgentAccessControls => exists i :: 0 <= i < |cfg.agents| && HasAccessControls(cfg.agents[i])
    case TokenAccounting => TokenLogging in cfg.flags
    case MultipleLLMServices => |cfg.services| > 1
    case SovereignWebSearch => OwnWebSearch in cfg.flags
    case ToolApprovalPolicies =>
      || !Within(cfg.embeddedTools, EMBEDDED_ORIGIN, defaults)
      || exists i :: 0 <= i < |cfg.plugins| && !Within(cfg.plugins[i].tools, PluginServerOrigin(cfg.plugins[i].pluginId), defaults)
    case RemoteMCP => PluginServerOn in cfg.flags || cfg.servers != []
    case SemanticSearch => EmbeddingSearch in cfg.flags
    case Meetings => CallSummary in cfg.flags || Transcripts in cfg.flags
    case MCPServiceAccount =>
      || (exists i :: 0 <= i < |cfg.agents| && cfg.agents[i].useServiceAccountAuth)
      || (exists i :: 0 <= i < |cfg.servers| && HeadersNonEmpty(cfg.servers[i].headers))
    case AttributeBasedAccess => exists i :: 0 <= i < |cfg.agents| && cfg.agents[i].userAccess.AttributeBased?
    case ModelFallback => exists i :: 0 <= i < |cfg.services| && cfg.services[i].fallbackServiceId != ""
  }

  lemma {:induction false} WithinBaseline(tools: seq<Tool>, name: string, origin: string, defaults: Defaults)
    requires Within(tools, origin, defaults)
    ensures Baseline(tools, name, defaults(origin, name)) <= ToolPolicyReach(defaults(origin, name))
  {
    if tools != [] && tools[|tools| - 1].name != name { WithinBaseline(tools[..|tools| - 1], name, origin, defaults); }
  }

  lemma WithinStays(prev: seq<Tool>, next: seq<Tool>, origin: string, defaults: Defaults)
    requires Within(prev, origin, defaults) && !PoliciesNewlyAuto(prev, next, origin, defaults)
    ensures Within(next, origin, defaults)
  {
    forall i | 0 <= i < |next| ensures ToolPolicyReach(next[i].policy) <= ToolPolicyReach(defaults(origin, next[i].name)) {
      WithinBaseline(prev, next[i].name, origin, defaults);
    }
  }

  /** The agent that the gates compare with. */
  function PrevAgent(from: Config, id: string): Agent {
    if id in PrevAgents(from) then PrevAgents(from)[id] else NO_AGENT
  }

  lemma AgentUseStaysAbsent(from: Config, next: Config, level: Level, defaults: Defaults, c: Capability)
    requires PassAgents(from, next, level) && !Allows(level, c) && !Uses(from, c, defaults)
    ensures forall i :: 0 <= i < |next.agents| ==>
              var a := next.agents[i];
              && (c.ProviderWebSearch? ==> !a.providerWebSearch)
              && (c.AgentAccessControls? ==> !HasAccessControls(a))
              && (c.MCPServiceAccount? ==> !a.useServiceAccountAuth)
              && (c.AttributeBasedAccess? ==> !a.userAccess.AttributeBased?)
  {
    forall i | 0 <= i < |next.agents|
      ensures var a := next.agents[i];
              && (c.ProviderWebSearch? ==> !a.providerWebSearch)
              && (c.AgentAccessControls? ==> !HasAccessControls(a))
              && (c.MCPServiceAccount? ==> !a.useServiceAccountAuth)
              && (c.AttributeBasedAccess? ==> !a.userAccess.AttributeBased?)
    {
      var prev, a := PrevAgent(from, next.agents[i].id), next.agents[i];
      assert prev == NO_AGENT || prev in from.agents;
      var gates := AgentGates(prev, a);
      assert gates[0].capability == AttributeBasedAccess && gates[1].capability == AgentAccessControls;
      assert gates[2].capability == MCPServiceAccount && gates[3].capability == ProviderWebSearch;
    }
  }

  lemma FallbacksStayAbsent(from: Config, next: Config, level: Level, defaults: Defaults)
    requires PassServices(from, next, level) && !Allows(level, ModelFallback) && !Uses(from, ModelFallback, defaults)
    ensures !Uses(next, ModelFallback, defaults)
  {
    forall i | 0 <= i < |next.services| ensures next.services[i].fallbackServiceId == "" {
      var prev := PrevServices(from);
      assert next.services[i].id in prev ==> prev[next.services[i].id] in from.services;
      assert Passes(ServiceGates(prev, next.services[i])[0], level);
    }
  }

  lemma ServersStayAbsent(from: Config, next: Config, level: Level, defaults: Defaults)
    requires PassServers(from, next, level, defaults)
    ensures !Allows(level, RemoteMCP) && from.servers == [] ==> next.servers == []
    ensures !Allows(level, MCPServiceAccount) && !Uses(from, MCPServiceAccount, defaults) ==>
              forall i :: 0 <= i < |next.servers| ==> !HeadersNonEmpty(next.servers[i].headers)
  {
    var prev := PrevServers(from);
    forall i | 0 <= i < |next.servers|
      ensures !Allows(level, RemoteMCP) ==> next.servers[i].id in prev
      ensures !Allows(level, MCPServiceAccount) && !Uses(from, MCPServiceAccount, defaults) ==> !HeadersNonEmpty(next.servers[i].headers)
    {
      var gates := ServerGates(prev, next.servers[i], defaults);
      assert Passes(gates[0], level) && Passes(gates[1], level);
      assert next.servers[i].id in prev ==> prev[next.servers[i].id] in from.servers;
    }
    assert !Allows(level, RemoteMCP) && next.servers != [] ==> next.servers[0].id in prev;
    if from.servers == [] { assert prev == map[]; }
  }

  lemma ToolPoliciesStayAbsent(from: Config, next: Config, level: Level, defaults: Defaults)
    requires PassFlags(from, next, level, defaults) && PassPlugins(from, next, level, defaults)
    requires !Allows(level, ToolApprovalPolicies) && !Uses(from, ToolApprovalPolicies, defaults)
    ensures !Uses(next, ToolApprovalPolicies, defaults)
  {
    assert FlagGates(from, next, defaults)[6] in FlagGates(from, next, defaults);
    WithinStays(from.embeddedTools, next.embeddedTools, EMBEDDED_ORIGIN, defaults);
    var prev := PrevPlugins(from);
    forall i | 0 <= i < |next.plugins|
      ensures Within(next.plugins[i].tools, PluginServerOrigin(next.plugins[i].pluginId), defaults)
    {
      var p := next.plugins[i];
      assert p.pluginId in prev ==> prev[p.pluginId] in from.plugins;
      assert Passes(PluginGates(prev, p, defaults)[1], level);
      WithinStays(if p.pluginId in prev then prev[p.pluginId].tools else [], p.tools, PluginServerOrigin(p.pluginId), defaults);
    }
  }

  lemma FlagUseStaysAbsent(from: Config, next: Config, level: Level, defaults: Defaults, c: Capability)
    requires PassFlags(from, next, level, defaults) && !Allows(level, c) && !Uses(from, c, defaults)
    ensures c.ProviderWebSearch? ==> ChannelWebSearch !in next.flags
    ensures c.TokenAccounting? ==> TokenLogging !in next.flags
    ensures c.SovereignWebSearch? ==> OwnWebSearch !in next.flags
    ensures c.SemanticSearch? ==> EmbeddingSearch !in next.flags
    ensures c.Meetings? ==> CallSummary !in next.flags && Transcripts !in next.flags
    ensures c.RemoteMCP? ==> PluginServerOn !in next.flags
  {
    var gates := FlagGates(from, next, defaults);
    assert gates[0] in gates && gates[1] in gates && gates[2] in gates && gates[3] in gates && gates[4] in gates && gates[5] in gates;
  }

  /** An accepted save does not bring in a capability the level does not allow. */
  lemma SaveKeepsAbsent(from: Config, next: Config, level: Level, defaults: Defaults, c: Capability)
    requires Accepted(from, next, level, defaults) && !Allows(level, c) && !Uses(from, c, defaults)
    ensures !Uses(next, c, defaults)
  {
    AcceptedMeans(from, next, level, defaults);
    match c
    case ModelFallback => FallbacksStayAbsent(from, next, level, defaults);
    case ToolApprovalPolicies => ToolPoliciesStayAbsent(from, next, level, defaults);
    case MultipleLLMServices => ServicesStayFew(from, next, level, defaults);
    case AgentAccessControls => AgentsStayOpen(from, next, level, defaults, c);
    case AttributeBasedAccess => AgentsStayOpen(from, next, level, defaults, c);
    case MCPServiceAccount => ServiceAccountsStayAbsent(from, next, level, defaults);
    case ProviderWebSearch => WebSearchStaysAbsent(from, next, level, defaults);
    case RemoteMCP => RemoteStaysAbsent(from, next, level, defaults);
    case _ => FlagUseStaysAbsent(from, next, level, defaults, c);
  }

  lemma ServicesStayFew(from: Config, next: Config, level: Level, defaults: Defaults)
    requires CountsOk(from, next, level) && !Allows(level, MultipleLLMServices) && !Uses(from, MultipleLLMServices, defaults)
    ensures !Uses(next, MultipleLLMServices, defaults)
  {
  }

  lemma AgentsStayOpen(from: Config, next: Config, level: Level, defaults: Defaults, c: Capability)
    requires c.AgentAccessControls? || c.AttributeBasedAccess?
    requires PassAgents(from, next, level) && !Allows(level, c) && !Uses(from, c, defaults)
    ensures !Uses(next, c, defaults)
  {
    AgentUseStaysAbsent(from, next, level, defaults, c);
  }

  lemma ServiceAccountsStayAbsent(from: Config, next: Config, level: Level, defaults: Defaults)
    requires PassAgents(from, next, level) && PassServers(from, next, level, defaults)
    requires !Allows(level, MCPServiceAccount) && !Uses(from, MCPServiceAccount, defaults)
    ensures !Uses(next, MCPServiceAccount, defaults)
  {
    AgentUseStaysAbsent(from, next, level, defaults, MCPServiceAccount);
    ServersStayAbsent(from, next, level, defaults);
  }

  lemma WebSearchStaysAbsent(from: Config, next: Config, level: Level, defaults: Defaults)
    requires PassAgents(from, next, level) && PassFlags(from, next, level, defaults)
    requires !Allows(level, ProviderWebSearch) && !Uses(from, ProviderWebSearch, defaults)
    ensures !Uses(next, ProviderWebSearch, defaults)
  {
    AgentUseStaysAbsent(from, next, level, defaults, ProviderWebSearch);
    FlagUseStaysAbsent(from, next, level, defaults, ProviderWebSearch);
  }

  lemma RemoteStaysAbsent(from: Config, next: Config, level: Level, defaults: Defaults)
    requires PassServers(from, next, level, defaults) && PassFlags(from, next, level, defaults)
    requires !Allows(level, RemoteMCP) && !Uses(from, RemoteMCP, defaults)
    ensures !Uses(next, RemoteMCP, defaults)
  {
    FlagUseStaysAbsent(from, next, level, defaults, RemoteMCP);
    ServersStayAbsent(from, next, level, defaults);
  }

  predicate SavedInTurn(saves: seq<Config>, level: Level, defaults: Defaults) {
    forall i :: 0 <= i < |saves| - 1 ==> Accepted(saves[i], saves[i + 1], level, defaults)
  }

  /** At a fixed level, a capability that the level does not allow and that is used nowhere is
      used nowhere after any number of accepted saves. */
  lemma {:induction false} AbsentStaysAbsent(saves: seq<Config>, level: Level, defaults: Defaults, c: Capability, n: nat)
    requires SavedInTurn(saves, level, defaults) && n < |saves| && !Allows(level, c) && !Uses(saves[0], c, defaults)
    ensures !Uses(saves[n], c, defaults)
  {
    if n > 0 {
      AbsentStaysAbsent(saves, level, defaults, c, n - 1);
      SaveKeepsAbsent(saves[n - 1], saves[n], level, defaults, c);
    }
  }

  /** A capped count never grows beyond its cap. */
  lemma {:induction false} CapsHold(saves: seq<Config>, level: Level, defaults: Defaults, n: nat)
    requires SavedInTurn(saves, level, defaults) && n < |saves|
    ensures Exceeds(|saves[n].services|, ServiceLimitFor(level)) ==> |saves[n].services| <= |saves[0].services|
    ensures Exceeds(|saves[n].agents|, AgentLimitFor(level)) ==> |saves[n].agents| <= |saves[0].agents|
  {
    if n > 0 {
      CapsHold(saves, level, defaults, n - 1);
      AcceptedMeans(saves[n - 1], saves[n], level, defaults);
    }
  }

  // ---------------------------------------------------------------- exceptions

  /** A server's tool policies are compared by the server's ID, but their defaults are looked
      up by its URL: a server that moves to a URL without defaults keeps the policies that
      were defaults at the old one, at any level. */
  lemma MovedServerKeepsItsPolicy(server: Server, newUrl: string, level: Level, defaults: Defaults)
    requires server.id != "" && Within(server.tools, server.baseUrl, defaults) && !Within(server.tools, newUrl, defaults)
    requires UniqueTools(server.tools)
    ensures var from := EMPTY.(servers := [server]);
            Accepted(from, from.(servers := [server.(baseUrl := newUrl)]), level, defaults)
  {
    var from := EMPTY.(servers := [server]);
    var next := from.(servers := [server.(baseUrl := newUrl)]);
    ServerKept(server, newUrl, defaults);
    MovedServerPasses(server, newUrl, level, defaults);
    OnlyServersPass(from, next, level, defaults);
    AcceptedMeans(from, next, level, defaults);
  }

  /** Where there is nothing but servers, only they can be refused. */
  lemma OnlyServersPass(from: Config, next: Config, level: Level, defaults: Defaults)
    requires next == EMPTY.(servers := next.servers) && from == EMPTY.(servers := from.servers)
    ensures PassAll(from, next, level, defaults) <==> PassServers(from, next, level, defaults)
  {
  }

  lemma MovedServerPasses(server: Server, newUrl: string, level: Level, defaults: Defaults)
    requires server.id != "" && !PoliciesNewlyAuto(server.tools, server.tools, newUrl, defaults)
    ensures AllPass(ServerGates(PrevServers(EMPTY.(servers := [server])), server.(baseUrl := newUrl), defaults), level)
  {
    FoundByKey([server], ServerId, server);
  }

  lemma ServerKept(server: Server, newUrl: string, defaults: Defaults)
    requires UniqueTools(server.tools)
    ensures !PoliciesNewlyAuto(server.tools, server.tools, newUrl, defaults)
  {
    forall i | 0 <= i < |server.tools|
      ensures ToolPolicyReach(server.tools[i].policy) <=
              Baseline(server.tools, server.tools[i].name, defaults(newUrl, server.tools[i].name))
    {
      StoredBaseline(server.tools, i, defaults(newUrl, server.tools[i].name));
    }
  }

  predicate HasTool(tools: seq<Tool>, name: string) {
    exists i :: 0 <= i < |tools| && tools[i].name == name
  }

  function StoredServerTools(from: Config, id: string): seq<Tool> {
    if id in PrevServers(from) then PrevServers(from)[id].tools else []
  }

  /** The default matters only for a tool that is not stored. */
  lemma {:induction false} DefaultMatters(tools: seq<Tool>, name: string, fallback: ToolPolicy, other: ToolPolicy)
    ensures if HasTool(tools, name) then Baseline(tools, name, fallback) == Baseline(tools, name, other)
            else Baseline(tools, name, fallback) == ToolPolicyReach(fallback)
  {
    if tools != [] {
      var n := |tools| - 1;
      DefaultMatters(tools[..n], name, fallback, other);
      assert HasTool(tools, name) <==> HasTool(tools[..n], name) || tools[n].name == name;
    }
  }

  /** Whatever is saved, where a server with stored tools is makes no difference at any level. */
  lemma MovingIsNotGated(from: Config, next: Config, i: nat, newUrl: string, level: Level, defaults: Defaults)
    requires i < |next.servers|
    requires forall t :: t in next.servers[i].tools ==> HasTool(StoredServerTools(from, next.servers[i].id), t.name)
    ensures Accepted(from, next.(servers := next.servers[i := next.servers[i].(baseUrl := newUrl)]), level, defaults) <==>
            Accepted(from, next, level, defaults)
  {
    var moved := next.(servers := next.servers[i := next.servers[i].(baseUrl := newUrl)]);
    AcceptedMeans(from, next, level, defaults);
    AcceptedMeans(from, moved, level, defaults);
    SameGates(PrevServers(from), next.servers[i], newUrl, defaults);
    MovedPassServers(from, next, i, newUrl, level, defaults);
    OnlyServersDiffer(from, next, moved.servers, level, defaults);
  }

  lemma OnlyServersDiffer(from: Config, next: Config, servers: seq<Server>, level: Level, defaults: Defaults)
    requires PassServers(from, next.(servers := servers), level, defaults) <==> PassServers(from, next, level, defaults)
    ensures PassAll(from, next.(servers := servers), level, defaults) <==> PassAll(from, next, level, defaults)
  {
  }

  lemma SameGates(prev: map<string, Server>, server: Server, newUrl: string, defaults: Defaults)
    requires forall t :: t in server.tools ==> HasTool(if server.id in prev then prev[server.id].tools else [], t.name)
    ensures ServerGates(prev, server.(baseUrl := newUrl), defaults) == ServerGates(prev, server, defaults)
  {
    var stored := if server.id in prev then prev[server.id].tools else [];
    forall k | 0 <= k < |server.tools|
      ensures Baseline(stored, server.tools[k].name, defaults(newUrl, server.tools[k].name)) ==
              Baseline(stored, server.tools[k].name, defaults(server.baseUrl, server.tools[k].name))
    {
      assert server.tools[k] in server.tools;
      DefaultMatters(stored, server.tools[k].name, defaults(newUrl, server.tools[k].name), defaults(server.baseUrl, server.tools[k].name));
    }
  }

  lemma MovedPassServers(from: Config, next: Config, i: nat, newUrl: string, level: Level, defaults: Defaults)
    requires i < |next.servers|
    requires ServerGates(PrevServers(from), next.servers[i].(baseUrl := newUrl), defaults) == ServerGates(PrevServers(from), next.servers[i], defaults)
    ensures PassServers(from, next.(servers := next.servers[i := next.servers[i].(baseUrl := newUrl)]), level, defaults) <==>
            PassServers(from, next, level, defaults)
  {
    var servers, moved := next.servers, next.servers[i := next.servers[i].(baseUrl := newUrl)];
    assert forall k :: 0 <= k < |servers| ==>
        ServerGates(PrevServers(from), moved[k], defaults) == ServerGates(PrevServers(from), servers[k], defaults);
  }

  /** It is the only way: where policies are not licensed, a tool that goes beyond its default
      after an accepted save was stored before. */
  lemma OnlyStoredToolsGoBeyond(from: Config, next: Config, server: Server, tool: Tool, level: Level, defaults: Defaults)
    requires Accepted(from, next, level, defaults) && !Allows(level, ToolApprovalPolicies)
    requires server in next.servers && tool in server.tools
    requires ToolPolicyReach(tool.policy) > ToolPolicyReach(defaults(server.baseUrl, tool.name))
    ensures HasTool(StoredServerTools(from, server.id), tool.name)
  {
    AcceptedMeans(from, next, level, defaults);
    var i :| 0 <= i < |next.servers| && next.servers[i] == server;
    assert Passes(ServerGates(PrevServers(from), server, defaults)[2], level);
    var k :| 0 <= k < |server.tools| && server.tools[k] == tool;
    var d := defaults(server.baseUrl, tool.name);
    DefaultMatters(StoredServerTools(from, server.id), tool.name, d, d);
  }

  /** Where the URL stays, policies beyond the defaults do not appear. */
  lemma UnmovedServersStayWithin(from: Config, next: Config, level: Level, defaults: Defaults)
    requires Accepted(from, next, level, defaults) && !Allows(level, ToolApprovalPolicies)
    requires forall s :: s in from.servers ==> Within(s.tools, s.baseUrl, defaults)
    requires forall s, t :: s in from.servers && t in next.servers && s.id == t.id ==> s.baseUrl == t.baseUrl
    ensures forall t :: t in next.servers ==> Within(t.tools, t.baseUrl, defaults)
  {
    AcceptedMeans(from, next, level, defaults);
    var prev := PrevServers(from);
    forall t | t in next.servers ensures Within(t.tools, t.baseUrl, defaults) {
      var i :| 0 <= i < |next.servers| && next.servers[i] == t;
      assert Passes(ServerGates(prev, t, defaults)[2], level);
      assert t.id in prev ==> prev[t.id] in from.servers && prev[t.id].id == t.id;
      WithinStays(if t.id in prev then prev[t.id].tools else [], t.tools, t.baseUrl, defaults);
    }
  }

  /** The plugin server was stored and turned off. */
  predicate StoredOff(from: Config, pluginId: string) {
    pluginId in PrevPlugins(from) && !PrevPlugins(from)[pluginId].enabled
  }

  function StoredTools(from: Config, pluginId: string): seq<Tool> {
    if pluginId in PrevPlugins(from) then PrevPlugins(from)[pluginId].tools else []
  }

  /** What one plugin server needs of the level. */
  predicate PluginAllowed(from: Config, p: PluginServer, level: Level, defaults: Defaults) {
    && (p.enabled && StoredOff(from, p.pluginId) ==> Allows(level, RemoteMCP))
    && (PoliciesNewlyAuto(StoredTools(from, p.pluginId), p.tools, PluginServerOrigin(p.pluginId), defaults) ==>
          Allows(level, ToolApprovalPolicies))
  }

  lemma PluginGatesMean(from: Config, p: PluginServer, level: Level, defaults: Defaults)
    ensures AllPass(PluginGates(PrevPlugins(from), p, defaults), level) <==> PluginAllowed(from, p, level, defaults)
  {
    var gates := PluginGates(PrevPlugins(from), p, defaults);
    assert Passes(gates[0], level) && Passes(gates[1], level) <==> AllPass(gates, level);
  }

  /** Where remote servers are not allowed, every accepted save has only such plugin servers
      turned on as were turned on before, or were not stored at all. */
  lemma StoredPluginsAreNotTurnedOn(from: Config, next: Config, level: Level, defaults: Defaults)
    requires Accepted(from, next, level, defaults) && !Allows(level, RemoteMCP)
    ensures forall p :: p in next.plugins && p.enabled ==> !StoredOff(from, p.pluginId)
  {
    AcceptedMeans(from, next, level, defaults);
    forall p | p in next.plugins && p.enabled ensures !StoredOff(from, p.pluginId) {
      var i :| 0 <= i < |next.plugins| && next.plugins[i] == p;
      PluginGatesMean(from, p, level, defaults);
    }
  }

  /** One more plugin server is accepted exactly when the save without it is and the server is
      allowed: turning it on needs a license exactly when it is stored and turned off. */
  lemma OneMorePluginServer(from: Config, next: Config, p: PluginServer, level: Level, defaults: Defaults)
    ensures Accepted(from, next.(plugins := next.plugins + [p]), level, defaults) <==>
            Accepted(from, next, level, defaults) && PluginAllowed(from, p, level, defaults)
  {
    AcceptedMeans(from, next, level, defaults);
    AcceptedMeans(from, next.(plugins := next.plugins + [p]), level, defaults);
    PluginGatesMean(from, p, level, defaults);
    PassAllSnoc(from, next, p, level, defaults);
  }

  lemma PassAllSnoc(from: Config, next: Config, p: PluginServer, level: Level, defaults: Defaults)
    ensures PassAll(from, next.(plugins := next.plugins + [p]), level, defaults) <==>
            PassAll(from, next, level, defaults) && AllPass(PluginGates(PrevPlugins(from), p, defaults), level)
  {
    PassPluginsSnoc(from, next, p, level, defaults);
    var more := next.(plugins := next.plugins + [p]);
    assert FlagGates(from, more, defaults) == FlagGates(from, next, defaults);
    assert PassFlags(from, more, level, defaults) <==> PassFlags(from, next, level, defaults);
  }

  lemma PassPluginsSnoc(from: Config, next: Config, p: PluginServer, level: Level, defaults: Defaults)
    ensures PassPlugins(from, next.(plugins := next.plugins + [p]), level, defaults) <==>
            PassPlugins(from, next, level, defaults) && AllPass(PluginGates(PrevPlugins(from), p, defaults), level)
  {
    var n := |next.plugins|;
    var longer := next.plugins + [p];
    assert longer[n] == p && forall i :: 0 <= i < n ==> longer[i] == next.plugins[i];
  }

  /** Whatever is saved, adding plugin servers that are not stored, turned on or not, makes no
      difference at any level, as long as no policy of theirs is beyond its default. */
  lemma {:induction false} NewPluginServersAreNotGated(
    from: Config, next: Config, added: seq<PluginServer>, level: Level, defaults: Defaults)
    requires forall p :: p in added ==>
               p.pluginId !in PrevPlugins(from) && Within(p.tools, PluginServerOrigin(p.pluginId), defaults)
    ensures Accepted(from, next.(plugins := next.plugins + added), level, defaults) <==> Accepted(from, next, level, defaults)
    decreases |added|
  {
    if added == [] {
      assert next.plugins + added == next.plugins;
    } else {
      var n := |added| - 1;
      var fewer := next.(plugins := next.plugins + added[..n]);
      NewPluginServersAreNotGated(from, next, added[..n], level, defaults);
      OneMorePluginServer(from, fewer, added[n], level, defaults);
      assert next.plugins + added == fewer.plugins + [added[n]];
    }
  }

  /** Without an ID a remote server looks new at every save. */
  lemma ServerWithoutIdIsRefused(cfg: Config, s: Server, level: Level, defaults: Defaults)
    requires s in cfg.servers && s.id == "" && !Allows(level, RemoteMCP)
    ensures !Accepted(cfg, cfg, level, defaults)
  {
    AcceptedMeans(cfg, cfg, level, defaults);
    var i :| 0 <= i < |cfg.servers| && cfg.servers[i] == s;
    assert !Passes(ServerGates(PrevServers(cfg), s, defaults)[0], level);
  }

  // ---------------------------------------------------------------- cutting back

  predicate UniqueTools(tools: seq<Tool>) {
    forall i, j :: 0 <= i < j < |tools| ==> tools[i].name != tools[j].name
  }

  lemma {:induction false} StoredBaseline(tools: seq<Tool>, i: nat, fallback: ToolPolicy)
    requires UniqueTools(tools) && i < |tools|
    ensures Baseline(tools, tools[i].name, fallback) == ToolPolicyReach(tools[i].policy)
  {
    var n := |tools| - 1;
    if i < n {
      assert tools[i].name != tools[n].name;
      StoredBaseline(tools[..n], i, fallback);
    }
  }

  /** Every tool was stored with at least the reach it now has. */
  predicate ToolsCutBack(prev: seq<Tool>, next: seq<Tool>) {
    forall t :: t in next ==> exists p :: p in prev && Covers(p, t)
  }

  predicate Covers(prev: Tool, next: Tool) {
    prev.name == next.name && ToolPolicyReach(next.policy) <= ToolPolicyReach(prev.policy)
  }

  lemma ToolsCutBackPass(prev: seq<Tool>, next: seq<Tool>, origin: string, defaults: Defaults)
    requires UniqueTools(prev) && ToolsCutBack(prev, next)
    ensures !PoliciesNewlyAuto(prev, next, origin, defaults)
  {
    forall i | 0 <= i < |next|
      ensures ToolPolicyReach(next[i].policy) <= Baseline(prev, next[i].name, defaults(origin, next[i].name))
    {
      assert next[i] in next;
      var p :| p in prev && Covers(p, next[i]);
      var j :| 0 <= j < |prev| && prev[j] == p;
      StoredBaseline(prev, j, defaults(origin, next[i].name));
    }
  }

  predicate AgentCutBack(prev: Agent, next: Agent) {
    && next.id == prev.id
    && (next.userAccess.AttributeBased? ==> prev.userAccess.AttributeBased?)
    && (HasAccessControls(next) ==> HasAccessControls(prev))
    && (next.useServiceAccountAuth ==> prev.useServiceAccountAuth)
    && (next.providerWebSearch ==> prev.providerWebSearch)
  }

  predicate ServerCutBack(prev: Server, next: Server) {
    && next.id == prev.id
    && (next.enabled ==> prev.enabled)
    && (HeadersNonEmpty(next.headers) ==> HeadersNonEmpty(prev.headers))
    && ToolsCutBack(prev.tools, next.tools)
  }

  predicate PluginCutBack(prev: PluginServer, next: PluginServer) {
    next.pluginId == prev.pluginId && (next.enabled ==> prev.enabled) && ToolsCutBack(prev.tools, next.tools)
  }

  /** Every item was stored before, with everything it now has. */
  predicate CutBack(from: Config, next: Config) {
    && next.flags <= from.flags && ToolsCutBack(from.embeddedTools, next.embeddedTools)
    && |next.services| <= |from.services| && |next.agents| <= |from.agents|
    && (forall s :: s in next.services ==>
          s.fallbackServiceId == "" || exists p :: p in from.services && p.id == s.id && p.fallbackServiceId == s.fallbackServiceId)
    && (forall a :: a in next.agents ==> exists p :: p in from.agents && AgentCutBack(p, a))
    && (forall s :: s in next.servers ==> exists p :: p in from.servers && ServerCutBack(p, s))
    && (forall s :: s in next.plugins ==> exists p :: p in from.plugins && PluginCutBack(p, s))
  }

  /** Items can be told apart, and so can the tools of each. */
  predicate WellKeyed(cfg: Config) {
    && UniqueKeys(cfg.services, ServiceId) && NoBlankKeys(cfg.services, ServiceId)
    && UniqueKeys(cfg.agents, AgentId) && NoBlankKeys(cfg.agents, AgentId)
    && UniqueKeys(cfg.servers, ServerId) && NoBlankKeys(cfg.servers, ServerId)
    && UniqueKeys(cfg.plugins, PluginId) && NoBlankKeys(cfg.plugins, PluginId)
    && UniqueTools(cfg.embeddedTools)
    && (forall s :: s in cfg.servers ==> UniqueTools(s.tools))
    && (forall p :: p in cfg.plugins ==> UniqueTools(p.tools))
  }

  lemma ServicesCutBackPass(from: Config, next: Config, level: Level)
    requires WellKeyed(from) && CutBack(from, next)
    ensures PassServices(from, next, level)
  {
    forall i | 0 <= i < |next.services| ensures AllPass(ServiceGates(PrevServices(from), next.services[i]), level) {
      var s := next.services[i];
      if s.fallbackServiceId != "" {
        var p :| p in from.services && p.id == s.id && p.fallbackServiceId == s.fallbackServiceId;
        FoundByKey(from.services, ServiceId, p);
      }
    }
  }

  lemma AgentsCutBackPass(from: Config, next: Config, level: Level)
    requires WellKeyed(from) && CutBack(from, next)
    ensures PassAgents(from, next, level)
  {
    forall i | 0 <= i < |next.agents| ensures AllPass(StoredAgentGates(PrevAgents(from), next.agents[i]), level) {
      var a := next.agents[i];
      assert a in next.agents;
      var p :| p in from.agents && AgentCutBack(p, a);
      FoundByKey(from.agents, AgentId, p);
      AgentCutBackPasses(p, a, level);
      assert StoredAgentGates(PrevAgents(from), a) == AgentGates(p, a);
    }
  }

  lemma AgentCutBackPasses(prev: Agent, next: Agent, level: Level)
    requires AgentCutBack(prev, next)
    ensures AllPass(AgentGates(prev, next), level)
  {
  }

  lemma ServersCutBackPass(from: Config, next: Config, level: Level, defaults: Defaults)
    requires WellKeyed(from) && CutBack(from, next)
    ensures PassServers(from, next, level, defaults)
  {
    forall i | 0 <= i < |next.servers| ensures AllPass(ServerGates(PrevServers(from), next.servers[i], defaults), level) {
      var s := next.servers[i];
      assert s in next.servers;
      var p :| p in from.servers && ServerCutBack(p, s);
      FoundByKey(from.servers, ServerId, p);
      ServerCutBackPasses(PrevServers(from), p, s, level, defaults);
    }
  }

  lemma ServerCutBackPasses(prev: map<string, Server>, p: Server, s: Server, level: Level, defaults: Defaults)
    requires s.id in prev && prev[s.id] == p && UniqueTools(p.tools) && ServerCutBack(p, s)
    ensures AllPass(ServerGates(prev, s, defaults), level)
  {
    ToolsCutBackPass(p.tools, s.tools, s.baseUrl, defaults);
  }

  lemma PluginsCutBackPass(from: Config, next: Config, level: Level, defaults: Defaults)
    requires WellKeyed(from) && CutBack(from, next)
    ensures PassPlugins(from, next, level, defaults)
  {
    forall i | 0 <= i < |next.plugins| ensures AllPass(PluginGates(PrevPlugins(from), next.plugins[i], defaults), level) {
      var s := next.plugins[i];
      assert s in next.plugins;
      var p :| p in from.plugins && PluginCutBack(p, s);
      FoundByKey(from.plugins, PluginId, p);
      ToolsCutBackPass(p.tools, s.tools, PluginServerOrigin(s.pluginId), defaults);
    }
  }

  /** Turning off, clearing and removing is accepted at every level, and so is saving the
      configuration unchanged. */
  lemma CuttingBackIsAccepted(from: Config, next: Config, level: Level, defaults: Defaults)
    requires WellKeyed(from) && CutBack(from, next)
    ensures Accepted(from, next, level, defaults)
  {
    ServicesCutBackPass(from, next, level);
    AgentsCutBackPass(from, next, level);
    ServersCutBackPass(from, next, level, defaults);
    PluginsCutBackPass(from, next, level, defaults);
    FlagsCutBackPass(from, next, level, defaults);
    AcceptedMeans(from, next, level, defaults);
  }

  lemma FlagsCutBackPass(from: Config, next: Config, level: Level, defaults: Defaults)
    requires WellKeyed(from) && CutBack(from, next)
    ensures PassFlags(from, next, level, defaults)
  {
    ToolsCutBackPass(from.embeddedTools, next.embeddedTools, EMBEDDED_ORIGIN, defaults);
  }

  lemma UnchangedIsAccepted(cfg: Config, level: Level, defaults: Defaults)
    requires WellKeyed(cfg)
    ensures Accepted(cfg, cfg, level, defaults)
  {
    assert forall a :: a in cfg.agents ==> AgentCutBack(a, a);
    forall s | s in cfg.servers ensures ServerCutBack(s, s) { }
    forall p | p in cfg.plugins ensures PluginCutBack(p, p) { }
    CuttingBackIsAccepted(cfg, cfg, level, defaults);
  }
}
