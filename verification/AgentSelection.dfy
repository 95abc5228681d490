/**
 Which agents run (config/agent_selection.go, config/license_gates.go and the quota check of
 api/api_agents.go): configured bots and then stored agents by age take the slots that the
 license level has.
 */
module AgentSelection {
  import opened Wrappers
  import opened Collections
  import opened GoStrings
  import opened LLMServices
  import opened Licenses

  datatype Agent = Agent(id: string, createAt: int, serviceId: string, settingsOk: bool, other: string)

  // ---------------------------------------------------------------- the pool

  /** By creation time, then by ID. */
  predicate Precedes(a: Agent, b: Agent) {
    a.createAt < b.createAt || (a.createAt == b.createAt && LexLess(a.id, b.id))
  }

  /** A stable sort puts an agent behind all that it does not precede. */
  function Inserted(sorted: seq<Agent>, a: Agent): seq<Agent> {
    if sorted == [] || !Precedes(a, sorted[|sorted| - 1]) then sorted + [a]
    else Inserted(sorted[..|sorted| - 1], a) + [sorted[|sorted| - 1]]
  }

  function Sorted(agents: seq<Agent>): seq<Agent> {
    if agents == [] then [] else Inserted(Sorted(agents[..|agents| - 1]), agents[|agents| - 1])
  }

  predicate InOrder(agents: seq<Agent>) {
    forall i, j :: 0 <= i < j < |agents| ==> !Precedes(agents[j], agents[i])
  }

  /** The agents with the same place in the order, as they come. */
  function Peers(agents: seq<Agent>, createAt: int, id: string): seq<Agent> {
    if agents == [] then []
    else
      var n := |agents| - 1;
      var before := Peers(agents[..n], createAt, id);
      if agents[n].createAt == createAt && agents[n].id == id then before + [agents[n]] else before
  }

  lemma OrderIsTransitive(a: Agent, b: Agent, c: Agent)
    requires !Precedes(b, a) && !Precedes(c, b)
    ensures !Precedes(c, a)
  {
    if Precedes(c, a) {
      if c.createAt == a.createAt == b.createAt {
        if b.id != a.id { LexTotal(a.id, b.id); }
        if b.id != a.id && c.id != b.id {
          LexTotal(b.id, c.id);
          LexTransitive(a.id, b.id, c.id);
        }
        LexIrreflexive(a.id);
        if c.id != a.id && !LexLess(b.id, a.id) { LexAsymmetric(a.id, c.id); }
      }
    }
  }

  lemma LexAsymmetric(a: string, b: string)
    requires LexLess(a, b)
    ensures !LexLess(b, a)
  {
    if LexLess(b, a) {
      LexTransitive(a, b, a);
      LexIrreflexive(a);
    }
  }

  lemma {:induction false} InsertedIsInOrder(sorted: seq<Agent>, a: Agent)
    requires InOrder(sorted)
    ensures InOrder(Inserted(sorted, a))
  {
    if sorted == [] || !Precedes(a, sorted[|sorted| - 1]) {
      forall i | 0 <= i < |sorted| ensures !Precedes(a, sorted[i]) {
        if i < |sorted| - 1 { OrderIsTransitive(sorted[i], sorted[|sorted| - 1], a); }
      }
      InOrderSnoc(sorted, a);
    } else {
      var front, last := sorted[..|sorted| - 1], sorted[|sorted| - 1];
      InsertedIsInOrder(front, a);
      InsertedHolds(front, a);
      PrecedesIsAsymmetric(a, last);
      forall i | 0 <= i < |Inserted(front, a)| ensures !Precedes(last, Inserted(front, a)[i]) {
        assert Inserted(front, a)[i] in multiset(Inserted(front, a));
      }
      InOrderSnoc(Inserted(front, a), last);
    }
  }

  lemma InOrderSnoc(sorted: seq<Agent>, last: Agent)
    requires InOrder(sorted) && forall i :: 0 <= i < |sorted| ==> !Precedes(last, sorted[i])
    ensures InOrder(sorted + [last])
  {
  }

  lemma {:induction false} InsertedHolds(sorted: seq<Agent>, a: Agent)
    ensures multiset(Inserted(sorted, a)) == multiset(sorted) + multiset{a}
  {
    if sorted != [] && Precedes(a, sorted[|sorted| - 1]) {
      InsertedHolds(sorted[..|sorted| - 1], a);
      assert sorted == sorted[..|sorted| - 1] + [sorted[|sorted| - 1]];
    }
  }

  lemma PrecedesIsAsymmetric(a: Agent, b: Agent)
    requires Precedes(a, b)
    ensures !Precedes(b, a)
  {
    if a.createAt == b.createAt { LexAsymmetric(a.id, b.id); }
  }

  lemma {:induction false} InsertedKeepsPeers(sorted: seq<Agent>, a: Agent, createAt: int, id: string)
    ensures Peers(Inserted(sorted, a), createAt, id) == Peers(sorted + [a], createAt, id)
  {
    if sorted != [] && Precedes(a, sorted[|sorted| - 1]) {
      var n := |sorted| - 1;
      var last := sorted[n];
      InsertedKeepsPeers(sorted[..n], a, createAt, id);
      PeersSnoc(Inserted(sorted[..n], a), last, createAt, id);
      PeersSnoc(sorted[..n], a, createAt, id);
      PeersSnoc(sorted, a, createAt, id);
      LexIrreflexive(id);
    }
  }

  lemma PeersSnoc(agents: seq<Agent>, a: Agent, createAt: int, id: string)
    ensures Peers(agents + [a], createAt, id) ==
            if a.createAt == createAt && a.id == id then Peers(agents, createAt, id) + [a] else Peers(agents, createAt, id)
  {
    assert (agents + [a])[..|agents|] == agents;
  }

  /** The pool's stored agents are all of them, in order. */
  lemma {:induction false} SortedIsInOrder(agents: seq<Agent>)
    ensures InOrder(Sorted(agents)) && multiset(Sorted(agents)) == multiset(agents)
  {
    if agents != [] {
      var n := |agents| - 1;
      SortedIsInOrder(agents[..n]);
      assert agents == agents[..n] + [agents[n]];
      InsertedIsInOrder(Sorted(agents[..n]), agents[n]);
      InsertedHolds(Sorted(agents[..n]), agents[n]);
    }
  }

  /** Agents that tie keep their order. */
  lemma {:induction false} SortedIsStable(agents: seq<Agent>, createAt: int, id: string)
    ensures Peers(Sorted(agents), createAt, id) == Peers(agents, createAt, id)
  {
    if agents != [] {
      var n := |agents| - 1;
      SortedIsStable(agents[..n], createAt, id);
      InsertedKeepsPeers(Sorted(agents[..n]), agents[n], createAt, id);
      PeersSnoc(Sorted(agents[..n]), agents[n], createAt, id);
    }
  }

  function Present(agents: seq<Option<Agent>>): seq<Agent> {
    if agents == [] then []
    else
      var n := |agents| - 1;
      if agents[n].Some? then Present(agents[..n]) + [agents[n].value] else Present(agents[..n])
  }

  /** The agents that were read, in order. */
  lemma {:induction false} PresentAreTheRead(agents: seq<Option<Agent>>, more: seq<Option<Agent>>)
    ensures Present(agents + more) == Present(agents) + Present(more)
    ensures forall a: Agent :: Present([Some(a)]) == [a]
    ensures Present([None]) == []
  {
    forall a: Option<Agent> ensures [a][..0] == [] { }
    if more == [] {
      assert agents + more == agents;
    } else {
      var n := |more| - 1;
      PresentAreTheRead(agents, more[..n]);
      assert (agents + more)[..|agents| + n] == agents + more[..n];
    }
  }

  /** Configured bots come first, then the stored agents. */
  method AgentPool(fileBots: seq<Agent>, dbAgents: seq<Option<Agent>>) returns (pool: seq<Agent>)
    ensures pool == fileBots + Sorted(Present(dbAgents))
  {
    var sorted: seq<Agent> := [];
    ghost var present: seq<Agent> := [];
    for i := 0 to |dbAgents|
      invariant present == Present(dbAgents[..i]) && sorted == Sorted(present)
    {
      assert dbAgents[..i + 1][..i] == dbAgents[..i];
      if dbAgents[i].None? { continue; }
      var a := dbAgents[i].value;
      assert (present + [a])[..|present|] == present;
      sorted := InsertStable(sorted, a);
      present := present + [a];
    }
    assert dbAgents[..|dbAgents|] == dbAgents;
    pool := fileBots + sorted;
  }

  method InsertStable(sorted: seq<Agent>, a: Agent) returns (sorted': seq<Agent>)
    ensures sorted' == Inserted(sorted, a)
  {
    var i := |sorted|;
    assert sorted[..i] == sorted;
    while i > 0 && Precedes(a, sorted[i - 1])
      invariant 0 <= i <= |sorted|
      invariant Inserted(sorted, a) == Inserted(sorted[..i], a) + sorted[i..]
    {
      assert sorted[..i][..i - 1] == sorted[..i - 1];
      assert [sorted[i - 1]] + sorted[i..] == sorted[i - 1..];
      i := i - 1;
    }
    sorted' := sorted[..i] + [a] + sorted[i..];
  }

  // ---------------------------------------------------------------- active services

  /** The services that are active at a level, in configuration order. */
  function LicensedServices(services: seq<ServiceConfig>, level: Level): (active: seq<ServiceConfig>)
    ensures active <= services
    ensures Exceeds(|services|, ServiceLimitFor(level)) ==> |active| == ServiceLimitFor(level).value
    ensures !Exceeds(|services|, ServiceLimitFor(level)) ==> active == services
  {
    var limit := ServiceLimitFor(level);
    if limit.None? || |services| <= limit.value then services else services[..limit.value]
  }

  predicate IsActiveService(services: seq<ServiceConfig>, level: Level, id: string) {
    id != "" && exists s :: s in LicensedServices(services, level) && s.id == id
  }

  method ActiveServiceIDs(services: seq<ServiceConfig>, level: Level) returns (ids: set<string>)
    ensures forall id :: id in ids <==> IsActiveService(services, level, id)
  {
    var active := LicensedServices(services, level);
    ids := {};
    for i := 0 to |active|
      invariant forall id :: id in ids <==> id != "" && exists k :: 0 <= k < i && active[k].id == id
    {
      if active[i].id != "" { ids := ids + {active[i].id}; }
    }
    forall id | id in ids ensures IsActiveService(services, level, id) {
      var k :| 0 <= k < |active| && active[k].id == id;
      assert active[k] in active;
    }
  }

  // ---------------------------------------------------------------- slots

  datatype Status = Active | InvalidConfig | ServiceUnavailable | ServiceNotLicensed | AgentLimit

  /** Why an agent takes no slot, or Active if it may take one. */
  function SlotStatus(services: seq<ServiceConfig>, level: Level, a: Agent): Status {
    if !a.settingsOk then InvalidConfig
    else if a.serviceId !in FirstById(services) || !IsValidService(FirstById(services)[a.serviceId]) then ServiceUnavailable
    else if !IsActiveService(services, level, a.serviceId) then ServiceNotLicensed
    else Active
  }

  /** An agent may take a slot if it and its service are complete and the service is among those
      active at the level; what is missing first is its status. */
  lemma StatusMeans(services: seq<ServiceConfig>, level: Level, a: Agent)
    ensures var byId := FirstById(services);
            var available := a.serviceId in byId && byId[a.serviceId].id != "" && byId[a.serviceId].kind != "" && byId[a.serviceId].settingsOk;
            var n := if ServiceLimitFor(level).Some? && |services| > ServiceLimitFor(level).value then ServiceLimitFor(level).value else |services|;
            var licensed := a.serviceId != "" && exists i :: 0 <= i < n && services[i].id == a.serviceId;
            && (SlotStatus(services, level, a) == InvalidConfig <==> !a.settingsOk)
            && (SlotStatus(services, level, a) == ServiceUnavailable <==> a.settingsOk && !available)
            && (SlotStatus(services, level, a) == ServiceNotLicensed <==> a.settingsOk && available && !licensed)
            && (Eligible(services, level, a) <==> a.settingsOk && available && licensed)
  {
    ActiveMeans(services, level, a.serviceId);
  }

  lemma ActiveMeans(services: seq<ServiceConfig>, level: Level, id: string)
    ensures var n := if ServiceLimitFor(level).Some? && |services| > ServiceLimitFor(level).value then ServiceLimitFor(level).value else |services|;
            IsActiveService(services, level, id) <==> id != "" && exists i :: 0 <= i < n && services[i].id == id
  {
    var active := LicensedServices(services, level);
    assert forall i :: 0 <= i < |active| ==> active[i] == services[i];
    if IsActiveService(services, level, id) {
      var s :| s in active && s.id == id;
      var i :| 0 <= i < |active| && active[i] == s;
      assert services[i].id == id;
    }
    var n := |active|;
    if i :| 0 <= i < n && services[i].id == id { assert active[i] in active; }
  }

  predicate Eligible(services: seq<ServiceConfig>, level: Level, a: Agent) {
    SlotStatus(services, level, a).Active?
  }

  function EligibleCount(services: seq<ServiceConfig>, level: Level, pool: seq<Agent>): (n: nat)
    ensures n <= |pool|
  {
    if pool == [] then 0
    else EligibleCount(services, level, pool[..|pool| - 1]) +
         if Eligible(services, level, pool[|pool| - 1]) then 1 else 0
  }

  /** Fewer eligible agents than the limit come before it. */
  predicate HasSlot(services: seq<ServiceConfig>, level: Level, pool: seq<Agent>, i: nat)
    requires i < |pool|
  {
    var limit := AgentLimitFor(level);
    limit.None? || EligibleCount(services, level, pool[..i]) < limit.value
  }

  predicate Runs(services: seq<ServiceConfig>, level: Level, pool: seq<Agent>, i: nat)
    requires i < |pool|
  {
    Eligible(services, level, pool[i]) && HasSlot(services, level, pool, i)
  }

  /** An agent is active exactly when it is eligible and has a slot; an eligible one without
      a slot is over the limit, and the others are told why they are not eligible. */
  method AgentInactiveReasons(services: seq<ServiceConfig>, pool: seq<Agent>, level: Level) returns (reasons: seq<Status>)
    ensures |reasons| == |pool|
    ensures forall i :: 0 <= i < |pool| ==>
              reasons[i] == if Eligible(services, level, pool[i]) && !HasSlot(services, level, pool, i) then AgentLimit
                            else SlotStatus(services, level, pool[i])
  {
    var byId := ServiceLookup(services);
    var activeServices := ActiveServiceIDs(services, level);
    var limit := AgentLimitFor(level);
    reasons := [];
    var active: nat := 0;
    for i := 0 to |pool|
      invariant |reasons| == i
      invariant active == var n := EligibleCount(services, level, pool[..i]); if limit.Some? && n > limit.value then limit.value else n
      invariant forall k :: 0 <= k < i ==>
                  reasons[k] == if Eligible(services, level, pool[k]) && !HasSlot(services, level, pool, k) then AgentLimit
                                else SlotStatus(services, level, pool[k])
    {
      assert pool[..i + 1][..i] == pool[..i];
      var bot := pool[i];
      if !bot.settingsOk {
        reasons := reasons + [InvalidConfig];
      } else if bot.serviceId !in byId || !IsValidService(byId[bot.serviceId]) {
        reasons := reasons + [ServiceUnavailable];
      } else if bot.serviceId !in activeServices {
        reasons := reasons + [ServiceNotLicensed];
      } else if limit.Some? && active >= limit.value {
        reasons := reasons + [AgentLimit];
      } else {
        reasons := reasons + [Active];
        active := active + 1;
      }
    }
    assert pool[..|pool|] == pool;
  }

  // ---------------------------------------------------------------- who is affected

  function WithoutIndex(pool: seq<Agent>, k: nat): seq<Agent>
    requires k < |pool|
  {
    pool[..k] + pool[k + 1..]
  }

  lemma {:induction false} CountOfBoth(services: seq<ServiceConfig>, level: Level, a: seq<Agent>, b: seq<Agent>)
    ensures EligibleCount(services, level, a + b) == EligibleCount(services, level, a) + EligibleCount(services, level, b)
  {
    if b == [] {
      assert a + b == a;
    } else {
      var n := |b| - 1;
      CountOfBoth(services, level, a, b[..n]);
      assert (a + b)[..|a| + n] == a + b[..n];
    }
  }

  /** The index of an agent when the one at index k is gone. */
  function Shifted(i: nat, k: nat): nat
    requires i != k
  {
    if i < k then i else i - 1
  }

  /** Removing any agent from the pool deactivates no other. */
  lemma RemovingDeactivatesNoOther(services: seq<ServiceConfig>, level: Level, pool: seq<Agent>, k: nat, i: nat)
    requires k < |pool| && i < |pool| && i != k && Runs(services, level, pool, i)
    ensures WithoutIndex(pool, k)[Shifted(i, k)] == pool[i]
    ensures Runs(services, level, WithoutIndex(pool, k), Shifted(i, k))
  {
    var fewer := WithoutIndex(pool, k);
    if i < k {
      assert fewer[..i] == pool[..i];
    } else {
      var middle := pool[k + 1..i];
      assert pool[..i] == pool[..k] + ([pool[k]] + middle);
      assert fewer[..i - 1] == pool[..k] + middle;
      CountOfBoth(services, level, pool[..k], [pool[k]] + middle);
      CountOfBoth(services, level, [pool[k]], middle);
      CountOfBoth(services, level, pool[..k], middle);
    }
  }

  /** The place where an agent is inserted. */
  lemma {:induction false} InsertedSomewhere(sorted: seq<Agent>, a: Agent) returns (k: nat)
    ensures k <= |sorted| && Inserted(sorted, a) == sorted[..k] + [a] + sorted[k..]
  {
    if sorted == [] || !Precedes(a, sorted[|sorted| - 1]) {
      k := |sorted|;
      assert sorted[..k] == sorted;
    } else {
      var n := |sorted| - 1;
      k := InsertedSomewhere(sorted[..n], a);
      assert sorted[..n][..k] == sorted[..k] && sorted[..n][k..] + [sorted[n]] == sorted[k..];
    }
  }

  /** One agent less, at some place. */
  predicate DropsOne(longer: seq<Agent>, a: Agent, shorter: seq<Agent>) {
    exists p :: 0 <= p < |longer| && longer[p] == a && WithoutIndex(longer, p) == shorter
  }

  lemma DropFromFront(longer: seq<Agent>, a: Agent, shorter: seq<Agent>, last: Agent)
    requires DropsOne(longer, a, shorter)
    ensures DropsOne(longer + [last], a, shorter + [last])
  {
    var p :| 0 <= p < |longer| && longer[p] == a && WithoutIndex(longer, p) == shorter;
    assert WithoutIndex(longer + [last], p) == shorter + [last];
  }

  lemma DropLast(front: seq<Agent>, last: Agent)
    ensures DropsOne(front + [last], last, front)
  {
    assert WithoutIndex(front + [last], |front|) == front;
  }

  lemma InsertedSnoc(sorted: seq<Agent>, last: Agent, a: Agent)
    ensures Inserted(sorted + [last], a) == if Precedes(a, last) then Inserted(sorted, a) + [last] else sorted + [last] + [a]
  {
    assert (sorted + [last])[..|sorted|] == sorted;
  }

  lemma WithoutBefore(front: seq<Agent>, last: Agent, p: nat)
    requires p < |front|
    ensures WithoutIndex(front + [last], p) == WithoutIndex(front, p) + [last]
    ensures DropsOne(front + [last], front[p], WithoutIndex(front, p) + [last])
  {
    assert (front + [last])[p] == front[p];
    assert WithoutIndex(front + [last], p) == WithoutIndex(front, p) + [last];
  }

  /** Inserting commutes with removing another agent. */
  lemma {:induction false} InsertAfterRemoval(sorted: seq<Agent>, p: nat, a: Agent)
    requires InOrder(sorted) && p < |sorted|
    ensures DropsOne(Inserted(sorted, a), sorted[p], Inserted(WithoutIndex(sorted, p), a))
  {
    var n := |sorted| - 1;
    var front, last := sorted[..n], sorted[n];
    assert sorted == front + [last];
    if p == n {
      assert WithoutIndex(sorted, p) == front;
      InsertAfterLast(front, last, a);
    } else {
      InsertAfterRemoval(front, p, a);
      InsertAfterEarlier(front, last, p, a);
    }
  }

  lemma InsertAfterEarlier(front: seq<Agent>, last: Agent, p: nat, a: Agent)
    requires p < |front| && DropsOne(Inserted(front, a), front[p], Inserted(WithoutIndex(front, p), a))
    ensures DropsOne(Inserted(front + [last], a), front[p], Inserted(WithoutIndex(front + [last], p), a))
  {
    var fewer := WithoutIndex(front, p);
    WithoutBefore(front, last, p);
    InsertedSnoc(front, last, a);
    InsertedSnoc(fewer, last, a);
    if Precedes(a, last) {
      DropFromFront(Inserted(front, a), front[p], Inserted(fewer, a), last);
    } else {
      DropFromFront(front + [last], front[p], fewer + [last], a);
    }
  }

  lemma InsertAfterLast(front: seq<Agent>, last: Agent, a: Agent)
    requires InOrder(front + [last])
    ensures DropsOne(Inserted(front + [last], a), last, Inserted(front, a))
  {
    InsertedSnoc(front, last, a);
    if Precedes(a, last) {
      DropLast(Inserted(front, a), last);
    } else {
      if front != [] {
        assert (front + [last])[|front| - 1] == front[|front| - 1] && (front + [last])[|front|] == last;
        OrderIsTransitive(front[|front| - 1], last, a);
      }
      DropLast(front, last);
      DropFromFront(front + [last], last, front, a);
    }
  }

  /** Removing a stored agent removes one agent from the sorted ones. */
  lemma {:induction false} RemovedFromSorted(agents: seq<Agent>, j: nat)
    requires j < |agents|
    ensures DropsOne(Sorted(agents), agents[j], Sorted(WithoutIndex(agents, j)))
  {
    var n := |agents| - 1;
    var front := agents[..n];
    if j == n {
      assert WithoutIndex(agents, n) == front;
      LastInserted(Sorted(front), agents[n]);
    } else {
      RemovedFromSorted(front, j);
      SortedIsInOrder(front);
      var p :| 0 <= p < |Sorted(front)| && Sorted(front)[p] == agents[j] &&
               WithoutIndex(Sorted(front), p) == Sorted(WithoutIndex(front, j));
      InsertAfterRemoval(Sorted(front), p, agents[n]);
      RemovedSnoc(agents, j);
    }
  }

  lemma RemovedSnoc(agents: seq<Agent>, j: nat)
    requires j < |agents| - 1
    ensures var n := |agents| - 1;
            Sorted(WithoutIndex(agents, j)) == Inserted(Sorted(WithoutIndex(agents[..n], j)), agents[n])
  {
    var front := agents[..|agents| - 1];
    assert WithoutIndex(agents, j) == WithoutIndex(front, j) + [agents[|agents| - 1]];
    SortedSnoc(WithoutIndex(front, j), agents[|agents| - 1]);
  }

  lemma SortedSnoc(agents: seq<Agent>, a: Agent)
    ensures Sorted(agents + [a]) == Inserted(Sorted(agents), a)
  {
    assert (agents + [a])[..|agents|] == agents;
  }

  lemma LastInserted(sorted: seq<Agent>, a: Agent)
    ensures DropsOne(Inserted(sorted, a), a, sorted)
  {
    var p := InsertedSomewhere(sorted, a);
    assert WithoutIndex(sorted[..p] + [a] + sorted[p..], p) == sorted[..p] + sorted[p..] == sorted;
  }

  lemma WithoutBehind(a: seq<Agent>, b: seq<Agent>, p: nat)
    requires p < |b|
    ensures (a + b)[|a| + p] == b[p] && WithoutIndex(a + b, |a| + p) == a + WithoutIndex(b, p)
  {
  }

  /** Deleting a stored agent deactivates no other agent. */
  lemma DeletingDeactivatesNoOther(services: seq<ServiceConfig>, level: Level, fileBots: seq<Agent>, stored: seq<Agent>, j: nat)
    returns (k: nat)
    requires j < |stored|
    ensures var pool := fileBots + Sorted(stored);
            && k < |pool| && pool[k] == stored[j]
            && fileBots + Sorted(WithoutIndex(stored, j)) == WithoutIndex(pool, k)
            && OthersRun(services, level, pool, k)
  {
    RemovedFromSorted(stored, j);
    k := RemovedBehind(fileBots, Sorted(stored), stored[j], Sorted(WithoutIndex(stored, j)));
    OthersKeepRunning(services, level, fileBots + Sorted(stored), k);
  }

  lemma RemovedBehind(fileBots: seq<Agent>, longer: seq<Agent>, a: Agent, shorter: seq<Agent>) returns (k: nat)
    requires DropsOne(longer, a, shorter)
    ensures k < |fileBots + longer| && (fileBots + longer)[k] == a && WithoutIndex(fileBots + longer, k) == fileBots + shorter
  {
    var p :| 0 <= p < |longer| && longer[p] == a && WithoutIndex(longer, p) == shorter;
    k := |fileBots| + p;
    WithoutBehind(fileBots, longer, p);
  }

  /** Removing this agent deactivates no other. */
  predicate OthersRun(services: seq<ServiceConfig>, level: Level, pool: seq<Agent>, k: nat)
    requires k < |pool|
  {
    forall i :: 0 <= i < |pool| && i != k && Runs(services, level, pool, i) ==>
      Shifted(i, k) < |WithoutIndex(pool, k)| && Runs(services, level, WithoutIndex(pool, k), Shifted(i, k))
  }

  lemma OthersKeepRunning(services: seq<ServiceConfig>, level: Level, pool: seq<Agent>, k: nat)
    requires k < |pool|
    ensures OthersRun(services, level, pool, k)
  {
    forall i | 0 <= i < |pool| && i != k && Runs(services, level, pool, i)
      ensures Shifted(i, k) < |WithoutIndex(pool, k)| && Runs(services, level, WithoutIndex(pool, k), Shifted(i, k))
    {
      RemovingDeactivatesNoOther(services, level, pool, k, i);
    }
  }

  /** A new agent that precedes no stored agent changes nothing for the others. */
  lemma AddingLastChangesNoOther(services: seq<ServiceConfig>, level: Level, fileBots: seq<Agent>, stored: seq<Agent>, a: Agent)
    requires forall b :: b in stored ==> !Precedes(a, b)
    ensures fileBots + Sorted(stored + [a]) == fileBots + Sorted(stored) + [a]
    ensures var pool := fileBots + Sorted(stored);
            forall i :: 0 <= i < |pool| ==> (Runs(services, level, pool + [a], i) <==> Runs(services, level, pool, i))
  {
    SortsLast(stored, a);
    Assoc(fileBots, Sorted(stored), [a]);
    AppendedChangesNoOther(services, level, fileBots + Sorted(stored), a);
  }

  lemma AppendedChangesNoOther(services: seq<ServiceConfig>, level: Level, pool: seq<Agent>, a: Agent)
    ensures forall i :: 0 <= i < |pool| ==> (Runs(services, level, pool + [a], i) <==> Runs(services, level, pool, i))
  {
    forall i | 0 <= i < |pool| ensures Runs(services, level, pool + [a], i) <==> Runs(services, level, pool, i) {
      assert (pool + [a])[..i] == pool[..i];
    }
  }

  lemma SortsLast(stored: seq<Agent>, a: Agent)
    requires forall b :: b in stored ==> !Precedes(a, b)
    ensures Sorted(stored + [a]) == Sorted(stored) + [a]
  {
    assert (stored + [a])[..|stored|] == stored;
    SortedIsInOrder(stored);
    forall b | b in Sorted(stored) ensures b in stored { assert b in multiset(Sorted(stored)); }
  }

  // ---------------------------------------------------------------- the quota of creating

  /** The agents that take a slot or wait for one. */
  function PoolCount(reasons: seq<Status>): nat {
    if reasons == [] then 0
    else PoolCount(reasons[..|reasons| - 1]) + if reasons[|reasons| - 1] in {Active, AgentLimit} then 1 else 0
  }

  method LicensedAgentPoolCount(reasons: seq<Status>) returns (n: nat)
    ensures n == PoolCount(reasons)
  {
    n := 0;
    for i := 0 to |reasons|
      invariant n == PoolCount(reasons[..i])
    {
      assert reasons[..i + 1][..i] == reasons[..i];
      if reasons[i] == Active || reasons[i] == AgentLimit { n := n + 1; }
    }
    assert reasons[..|reasons|] == reasons;
  }

  lemma {:induction false} CountIsEligible(services: seq<ServiceConfig>, level: Level, pool: seq<Agent>, reasons: seq<Status>)
    requires |reasons| == |pool|
    requires forall i :: 0 <= i < |pool| ==> (reasons[i] in {Active, AgentLimit} <==> Eligible(services, level, pool[i]))
    ensures PoolCount(reasons) == EligibleCount(services, level, pool)
  {
    if pool != [] { CountIsEligible(services, level, pool[..|pool| - 1], reasons[..|pool| - 1]); }
  }

  /** Whether one more agent may be created. */
  method CheckAgentCreateQuota(services: seq<ServiceConfig>, fileBots: seq<Agent>, dbAgents: seq<Option<Agent>>, level: Level)
    returns (ok: bool)
    ensures var limit := AgentLimitFor(level);
            ok <==> limit.None? || EligibleCount(services, level, fileBots + Sorted(Present(dbAgents))) < limit.value
  {
    var limit := AgentLimitFor(level);
    if limit.None? { return true; }
    var pool := AgentPool(fileBots, dbAgents);
    var reasons := AgentInactiveReasons(services, pool, level);
    var n := LicensedAgentPoolCount(reasons);
    CountIsEligible(services, level, pool, reasons);
    ok := n < limit.value;
  }

  lemma {:induction false} CountIsMonotone(services: seq<ServiceConfig>, level: Level, pool: seq<Agent>, i: nat)
    requires i <= |pool|
    ensures EligibleCount(services, level, pool[..i]) <= EligibleCount(services, level, pool)
    ensures i < |pool| && Eligible(services, level, pool[i]) ==>
              EligibleCount(services, level, pool[..i]) < EligibleCount(services, level, pool)
    decreases |pool|
  {
    if i < |pool| {
      assert pool[..|pool| - 1][..i] == pool[..i];
      CountIsMonotone(services, level, pool[..|pool| - 1], i);
    } else {
      assert pool[..i] == pool;
    }
  }

  /** Once the check has passed, the created agent is active if it is eligible, wherever it is
      sorted, and so is every other eligible agent. */
  lemma CreatedAgentIsActive(services: seq<ServiceConfig>, level: Level, fileBots: seq<Agent>, stored: seq<Agent>, a: Agent, i: nat)
    requires var limit := AgentLimitFor(level);
             limit.None? || EligibleCount(services, level, fileBots + Sorted(stored)) < limit.value
    requires var pool := fileBots + Sorted(stored + [a]); i < |pool| && Eligible(services, level, pool[i])
    ensures Runs(services, level, fileBots + Sorted(stored + [a]), i)
  {
    OneMoreCounts(services, level, fileBots, stored, a);
    CountIsMonotone(services, level, fileBots + Sorted(stored + [a]), i);
  }

  lemma OneMoreCounts(services: seq<ServiceConfig>, level: Level, fileBots: seq<Agent>, stored: seq<Agent>, a: Agent)
    ensures EligibleCount(services, level, fileBots + Sorted(stored + [a])) ==
            EligibleCount(services, level, fileBots + Sorted(stored)) + if Eligible(services, level, a) then 1 else 0
  {
    var sorted := Sorted(stored);
    assert (stored + [a])[..|stored|] == stored;
    var k := InsertedSomewhere(sorted, a);
    assert sorted == sorted[..k] + sorted[k..];
    CountOfBoth(services, level, fileBots, sorted[..k] + sorted[k..]);
    CountOfBoth(services, level, sorted[..k], sorted[k..]);
    CountOfBoth(services, level, fileBots, sorted[..k] + [a] + sorted[k..]);
    CountOfBoth(services, level, sorted[..k] + [a], sorted[k..]);
    CountOfBoth(services, level, sorted[..k], [a]);
  }

  lemma {:induction false} MoreCount(services: seq<ServiceConfig>, level: Level, fileBots: seq<Agent>, stored: seq<Agent>, added: seq<Agent>)
    ensures CountsAdded(services, level, fileBots, stored, added)
  {
    if added == [] {
      NoneCounts(services, level, fileBots, stored, added);
    } else {
      MoreCount(services, level, fileBots, stored, added[..|added| - 1]);
      LastCounts(services, level, fileBots, stored, added);
    }
  }

  /** The eligible agents of the pool grow by those added. */
  predicate CountsAdded(services: seq<ServiceConfig>, level: Level, fileBots: seq<Agent>, stored: seq<Agent>, added: seq<Agent>) {
    EligibleCount(services, level, fileBots + Sorted(stored + added)) ==
    EligibleCount(services, level, fileBots + Sorted(stored)) + EligibleCount(services, level, added)
  }

  lemma NoneCounts(services: seq<ServiceConfig>, level: Level, fileBots: seq<Agent>, stored: seq<Agent>, added: seq<Agent>)
    requires added == []
    ensures CountsAdded(services, level, fileBots, stored, added)
  {
    assert stored + added == stored;
  }

  lemma LastCounts(services: seq<ServiceConfig>, level: Level, fileBots: seq<Agent>, stored: seq<Agent>, added: seq<Agent>)
    requires added != [] && CountsAdded(services, level, fileBots, stored, added[..|added| - 1])
    ensures CountsAdded(services, level, fileBots, stored, added)
  {
    var n := |added| - 1;
    assert stored + added == stored + added[..n] + [added[n]];
    OneMoreCounts(services, level, fileBots, stored + added[..n], added[n]);
  }

  /** An eligible agent of the pool waits for a slot. */
  predicate SomeWaits(services: seq<ServiceConfig>, level: Level, pool: seq<Agent>) {
    exists i :: 0 <= i < |pool| && Eligible(services, level, pool[i]) && !HasSlot(services, level, pool, i)
  }

  lemma {:induction false} LastEligible(services: seq<ServiceConfig>, level: Level, pool: seq<Agent>) returns (i: nat)
    requires EligibleCount(services, level, pool) > 0
    ensures i < |pool| && Eligible(services, level, pool[i])
    ensures EligibleCount(services, level, pool[..i]) == EligibleCount(services, level, pool) - 1
  {
    var n := |pool| - 1;
    if Eligible(services, level, pool[n]) { return n; }
    i := LastEligible(services, level, pool[..n]);
    assert pool[..n][..i] == pool[..i];
  }

  lemma WaitsExactlyOverTheLimit(services: seq<ServiceConfig>, level: Level, pool: seq<Agent>)
    ensures SomeWaits(services, level, pool) <==> Exceeds(EligibleCount(services, level, pool), AgentLimitFor(level))
  {
    if i :| 0 <= i < |pool| && Eligible(services, level, pool[i]) && !HasSlot(services, level, pool, i) {
      CountIsMonotone(services, level, pool, i);
    }
    if Exceeds(EligibleCount(services, level, pool), AgentLimitFor(level)) {
      var i := LastEligible(services, level, pool);
      assert !HasSlot(services, level, pool, i);
    }
  }

  /** The check and the creation are two calls. When agents are created whose checks all saw the
      same stored agents, one of the pool waits for a slot exactly when those that are eligible
      exceed what was left of the limit. */
  lemma {:induction false} CheckedTogetherExceedExactly(services: seq<ServiceConfig>, level: Level, fileBots: seq<Agent>, stored: seq<Agent>, added: seq<Agent>)
    ensures SomeWaits(services, level, fileBots + Sorted(stored + added)) <==>
            Exceeds(EligibleCount(services, level, fileBots + Sorted(stored)) + EligibleCount(services, level, added), AgentLimitFor(level))
  {
    WaitsOverTheAdded(services, level, fileBots, stored, added, fileBots + Sorted(stored + added), fileBots + Sorted(stored));
  }

  lemma WaitsOverTheAdded(services: seq<ServiceConfig>, level: Level, fileBots: seq<Agent>, stored: seq<Agent>, added: seq<Agent>,
                          pool: seq<Agent>, before: seq<Agent>)
    requires pool == fileBots + Sorted(stored + added) && before == fileBots + Sorted(stored)
    ensures SomeWaits(services, level, pool) <==>
            Exceeds(EligibleCount(services, level, before) + EligibleCount(services, level, added), AgentLimitFor(level))
  {
    MoreCount(services, level, fileBots, stored, added);
    CountsAddedMeans(services, level, fileBots, stored, added, pool, before);
    WaitsOverTheSum(services, level, pool, before, added);
  }

  lemma WaitsOverTheSum(services: seq<ServiceConfig>, level: Level, pool: seq<Agent>, before: seq<Agent>, added: seq<Agent>)
    requires EligibleCount(services, level, pool) == EligibleCount(services, level, before) + EligibleCount(services, level, added)
    ensures SomeWaits(services, level, pool) <==>
            Exceeds(EligibleCount(services, level, before) + EligibleCount(services, level, added), AgentLimitFor(level))
  {
    WaitsExactlyOverTheLimit(services, level, pool);
  }

  lemma CountsAddedMeans(services: seq<ServiceConfig>, level: Level, fileBots: seq<Agent>, stored: seq<Agent>, added: seq<Agent>,
                         pool: seq<Agent>, before: seq<Agent>)
    requires CountsAdded(services, level, fileBots, stored, added)
    requires pool == fileBots + Sorted(stored + added) && before == fileBots + Sorted(stored)
    ensures EligibleCount(services, level, pool) == EligibleCount(services, level, before) + EligibleCount(services, level, added)
  {
  }

  /** So two eligible agents exceed it when one was left. */
  lemma TwoCheckedTogetherExceed(services: seq<ServiceConfig>, level: Level, fileBots: seq<Agent>, stored: seq<Agent>, a: Agent, b: Agent)
    requires var limit := AgentLimitFor(level);
             limit.Some? && EligibleCount(services, level, fileBots + Sorted(stored)) == limit.value - 1
    requires Eligible(services, level, a) && Eligible(services, level, b)
    ensures SomeWaits(services, level, fileBots + Sorted(stored + [a, b]))
  {
    assert [a, b][..1] == [a] && [a][..0] == [];
    CheckedTogetherExceedExactly(services, level, fileBots, stored, [a, b]);
  }
}
