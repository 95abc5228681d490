/**
 The registry of provider clients shared by requests and agents
 (bots/service_llm_registry.go): clients are built lazily, leased, retired when the
 configuration changes, and shut down once their leases drain.

 The registry's lock-protected sections are functions on Shared. Requests, drain
 goroutines, reconciliations and plugin deactivation interleave between them.
 */
module ServiceLLMRegistry {
  import opened Wrappers
  import opened LLMServices

  /** A built client and the configuration it was built from. shutdowns counts how often
      the client was actually shut down; shutDone is the once flag guarding that. */
  datatype Entry = Entry(
    svc: ServiceConfig, fallbacks: seq<ServiceConfig>,
    inUse: nat, shutDone: bool, shutdowns: nat)

  /** How far the goroutine of a retired entry has come. */
  datatype Drain = Draining | Drained | ShutOff

  /** What the registry's locks protect. An entry's identity is its index in entries. */
  datatype Shared = Shared(
    entries: seq<Entry>, cached: map<string, nat>, retired: set<nat>, drains: map<nat, Drain>)

  predicate Matches(entry: Entry, svc: ServiceConfig, fallbacks: seq<ServiceConfig>) {
    entry.svc == svc && entry.fallbacks == fallbacks
  }

  /** Every cached entry is cached under the ID of its own service. */
  predicate Indexed(sh: Shared) {
    forall id :: id in sh.cached ==> sh.cached[id] < |sh.entries| && sh.entries[sh.cached[id]].svc.id == id
  }

  predicate IsCached(sh: Shared, e: nat)
    requires e < |sh.entries|
  {
    sh.entries[e].svc.id in sh.cached && sh.cached[sh.entries[e].svc.id] == e
  }

  function CachedMatch(sh: Shared, svc: ServiceConfig, fallbacks: seq<ServiceConfig>): Option<nat>
    requires Indexed(sh)
  {
    if svc.id in sh.cached && Matches(sh.entries[sh.cached[svc.id]], svc, fallbacks)
    then Some(sh.cached[svc.id]) else None
  }

  function AddLease(sh: Shared, e: nat): Shared
    requires e < |sh.entries|
  {
    sh.(entries := sh.entries[e := sh.entries[e].(inUse := sh.entries[e].inUse + 1)])
  }

  function DropLease(sh: Shared, e: nat): Shared
    requires e < |sh.entries| && sh.entries[e].inUse > 0
  {
    sh.(entries := sh.entries[e := sh.entries[e].(inUse := sh.entries[e].inUse - 1)])
  }

  function AddBuilt(sh: Shared, svc: ServiceConfig, fallbacks: seq<ServiceConfig>): Shared {
    sh.(entries := sh.entries + [Entry(svc, fallbacks, 1, false, 0)])
  }

  function Retire(sh: Shared, e: nat): Shared {
    sh.(retired := sh.retired + {e}, drains := sh.drains[e := Draining])
  }

  function Publish(sh: Shared, e: nat): Shared
    requires e < |sh.entries|
  {
    var id := sh.entries[e].svc.id;
    var sh' := if id in sh.cached then Retire(sh, sh.cached[id]) else sh;
    sh'.(cached := sh'.cached[id := e])
  }

  /** The entry still is what the services configure for id. */
  predicate Current(byId: Services, id: string, entry: Entry) {
    && id in byId && byId[id] == entry.svc
    && FallbackChain(byId, id) == Ok(entry.fallbacks)
  }

  function Outdated(sh: Shared, byId: Services): set<string>
    requires Indexed(sh)
  {
    set id | id in sh.cached && !Current(byId, id, sh.entries[sh.cached[id]])
  }

  function CachedUnder(sh: Shared, ids: set<string>): set<nat> {
    set id | id in ids && id in sh.cached :: sh.cached[id]
  }

  /** Evicts and retires the entries cached under ids. */
  function Evict(sh: Shared, ids: set<string>): Shared {
    var evicted := CachedUnder(sh, ids);
    sh.(cached := sh.cached - ids, retired := sh.retired + evicted,
        drains := sh.drains + map e | e in evicted :: Draining)
  }

  function ShutEntry(entry: Entry): Entry {
    if entry.shutDone then entry else entry.(shutDone := true, shutdowns := entry.shutdowns + 1)
  }

  function ShutDown(sh: Shared, e: nat): Shared
    requires e < |sh.entries|
  {
    sh.(entries := sh.entries[e := ShutEntry(sh.entries[e])])
  }

  function Forget(sh: Shared, e: nat): Shared {
    sh.(retired := sh.retired - {e}, drains := sh.drains - {e})
  }

  /** Everything ShutdownServiceLLMs is about to shut down. */
  function Owned(sh: Shared): set<nat> {
    (set id | id in sh.cached :: sh.cached[id]) + sh.retired
  }

  function Cleared(sh: Shared): Shared {
    sh.(cached := map[], retired := {})
  }

  // ------------------------------------------------------------- interleavings

  /** Where a request is in leaseServiceLLM, and then with its lease. */
  datatype Pc =
    | Looking | Waiting | Locked | Building
    | Built(e: nat) | Holding(e: nat) | Released(e: nat) | Failed

  datatype Request = Request(svc: ServiceConfig, fallbacks: seq<ServiceConfig>, pc: Pc)

  /** doomed are the entries collected by ShutdownServiceLLMs calls and not yet shut down. */
  datatype Registry = Registry(
    shared: Shared, buildLock: Option<nat>, requests: map<nat, Request>, doomed: set<nat>)

  datatype Step =
    | Arrive(r: nat, svc: ServiceConfig, fallbacks: seq<ServiceConfig>)
    | LookUp(r: nat)
    | TakeBuildLock(r: nat)
    | Recheck(r: nat)
    | BuildFails(r: nat)
    | BuildSucceeds(r: nat)
    | PublishBuilt(r: nat)
    | Release(r: nat)
    | Reconcile(services: seq<ServiceConfig>)
    | DrainWaits(e: nat)
    | DrainShutsDown(e: nat)
    | DrainForgets(e: nat)
    | CollectAll
    | ShutNext(e: nat)

  predicate At(s: Registry, r: nat, pc: Pc) {
    r in s.requests && s.requests[r].pc == pc
  }

  predicate LeaseOf(pc: Pc, e: nat) {
    pc == Holding(e) || pc == Built(e)
  }

  predicate HoldsBuildLock(pc: Pc) {
    pc.Locked? || pc.Building? || pc.Built?
  }

  /** The requests with an unreleased lease on e. */
  function Holders(requests: map<nat, Request>, e: nat): set<nat> {
    set r | r in requests && LeaseOf(requests[r].pc, e)
  }

  /** When a step can happen. */
  predicate Guard(s: Registry, step: Step) {
    match step
    case Arrive(r, _, _) => r !in s.requests
    case LookUp(r) => At(s, r, Looking)
    case TakeBuildLock(r) => At(s, r, Waiting) && s.buildLock == None
    case Recheck(r) => At(s, r, Locked)
    case BuildFails(r) => At(s, r, Building)
    case BuildSucceeds(r) => At(s, r, Building)
    case PublishBuilt(r) => r in s.requests && s.requests[r].pc.Built?
    case Release(r) => r in s.requests && (s.requests[r].pc.Holding? || s.requests[r].pc.Released?)
    case Reconcile(_) => true
    case DrainWaits(e) =>
      e in s.shared.drains && s.shared.drains[e] == Draining && (e < |s.shared.entries| ==> s.shared.entries[e].inUse == 0)
    case DrainShutsDown(e) => e in s.shared.drains && s.shared.drains[e] == Drained
    case DrainForgets(e) => e in s.shared.drains && s.shared.drains[e] == ShutOff
    case CollectAll => true
    case ShutNext(e) => e in s.doomed
  }

  /** The entries a step touches exist. This holds in every reachable state
      (GuardSuffices), so it never holds a step back. */
  predicate InRange(s: Registry, step: Step) {
    var n := |s.shared.entries|;
    match step
    case LookUp(r) => Indexed(s.shared)
    case Recheck(r) => Indexed(s.shared)
    case PublishBuilt(r) => r in s.requests && s.requests[r].pc.Built? && s.requests[r].pc.e < n
    case Release(r) =>
      && r in s.requests && (s.requests[r].pc.Holding? || s.requests[r].pc.Released?)
      && s.requests[r].pc.e < n
      && (s.requests[r].pc.Holding? ==> s.shared.entries[s.requests[r].pc.e].inUse > 0)
    case Reconcile(_) => Indexed(s.shared)
    case DrainWaits(e) => e < n
    case DrainShutsDown(e) => e < n
    case ShutNext(e) => e < n
    case _ => true
  }

  predicate Enabled(s: Registry, step: Step) {
    Guard(s, step) && InRange(s, step)
  }

  function Moved(s: Registry, r: nat, pc: Pc): map<nat, Request>
    requires r in s.requests
  {
    s.requests[r := s.requests[r].(pc := pc)]
  }

  function Apply(s: Registry, step: Step): Registry
    requires Enabled(s, step)
  {
    var sh := s.shared;
    match step
    case Arrive(r, svc, fallbacks) => s.(requests := s.requests[r := Request(svc, fallbacks, Looking)])
    case LookUp(r) =>
      (match CachedMatch(sh, s.requests[r].svc, s.requests[r].fallbacks)
       case Some(e) => s.(shared := AddLease(sh, e), requests := Moved(s, r, Holding(e)))
       case None => s.(requests := Moved(s, r, Waiting)))
    case TakeBuildLock(r) => s.(buildLock := Some(r), requests := Moved(s, r, Locked))
    case Recheck(r) =>
      (match CachedMatch(sh, s.requests[r].svc, s.requests[r].fallbacks)
       case Some(e) => s.(shared := AddLease(sh, e), buildLock := None, requests := Moved(s, r, Holding(e)))
       case None => s.(requests := Moved(s, r, Building)))
    case BuildFails(r) => s.(buildLock := None, requests := Moved(s, r, Failed))
    case BuildSucceeds(r) =>
      s.(shared := AddBuilt(sh, s.requests[r].svc, s.requests[r].fallbacks), requests := Moved(s, r, Built(|sh.entries|)))
    case PublishBuilt(r) =>
      var e := s.requests[r].pc.e;
      s.(shared := Publish(sh, e), buildLock := None, requests := Moved(s, r, Holding(e)))
    case Release(r) =>
      if s.requests[r].pc.Released? then s
      else s.(shared := DropLease(sh, s.requests[r].pc.e), requests := Moved(s, r, Released(s.requests[r].pc.e)))
    case Reconcile(services) => s.(shared := Evict(sh, Outdated(sh, FirstById(services))))
    case DrainWaits(e) => s.(shared := sh.(drains := sh.drains[e := Drained]))
    case DrainShutsDown(e) =>
      var sh' := ShutDown(sh, e);
      s.(shared := sh'.(drains := sh'.drains[e := ShutOff]))
    case DrainForgets(e) => s.(shared := Forget(sh, e))
    case CollectAll => s.(shared := Cleared(sh), doomed := s.doomed + Owned(sh))
    case ShutNext(e) => s.(shared := ShutDown(sh, e), doomed := s.doomed - {e})
  }

  predicate Reaches(s: Registry, steps: seq<Step>, t: Registry)
    decreases |steps|
  {
    if steps == [] then t == s
    else Enabled(s, steps[0]) && Reaches(Apply(s, steps[0]), steps[1..], t)
  }

  const EMPTY := Registry(Shared([], map[], {}, map[]), None, map[], {})

  // ---------------------------------------------------------------- invariant

  /** The entry a build has produced and not published yet. */
  predicate Unpublished(s: Registry, e: nat) {
    s.buildLock.Some? && At(s, s.buildLock.value, Built(e))
  }

  /** What holds of entry e: at most one shutdown, one owner until then, and a lease
      count that equals the unreleased leases. */
  ghost predicate EntryOk(s: Registry, e: nat)
    requires e < |s.shared.entries|
  {
    var sh := s.shared;
    var entry := sh.entries[e];
    && entry.shutdowns == (if entry.shutDone then 1 else 0)
    && entry.inUse == |Holders(s.requests, e)|
    && (e in sh.retired ==> e in sh.drains)
    && (e in sh.drains || e in s.doomed ==> !IsCached(sh, e) && !Unpublished(s, e))
    && (Unpublished(s, e) ==> !IsCached(sh, e) && !entry.shutDone)
    && (e in sh.drains && !sh.drains[e].Draining? ==> entry.inUse == 0)
    && (e in sh.drains && sh.drains[e].ShutOff? ==> entry.shutDone)
    && (!entry.shutDone ==> IsCached(sh, e) || e in sh.retired || e in s.doomed || Unpublished(s, e))
  }

  ghost predicate RequestOk(s: Registry, r: nat)
    requires r in s.requests && Indexed(s.shared)
  {
    var q := s.requests[r];
    && (HoldsBuildLock(q.pc) <==> s.buildLock == Some(r))
    && (q.pc.Building? ==> CachedMatch(s.shared, q.svc, q.fallbacks) == None)
    && (q.pc.Built? || q.pc.Holding? || q.pc.Released? ==>
          q.pc.e < |s.shared.entries| && Matches(s.shared.entries[q.pc.e], q.svc, q.fallbacks))
  }

  ghost predicate ShapeOk(s: Registry) {
    && Indexed(s.shared)
    && (s.buildLock.Some? ==> s.buildLock.value in s.requests)
    && (forall e :: e in s.shared.retired || e in s.shared.drains || e in s.doomed ==> e < |s.shared.entries|)
  }

  ghost predicate Invariant(s: Registry) {
    && ShapeOk(s)
    && (forall r :: r in s.requests ==> RequestOk(s, r))
    && (forall e :: 0 <= e < |s.shared.entries| ==> EntryOk(s, e))
  }

  lemma GuardSuffices(s: Registry, step: Step)
    requires Invariant(s) && Guard(s, step)
    ensures Enabled(s, step)
  {
    if step.Release? || step.PublishBuilt? {
      assert RequestOk(s, step.r);
      var e := s.requests[step.r].pc.e;
      assert EntryOk(s, e);
      if s.requests[step.r].pc.Holding? { assert step.r in Holders(s.requests, e); }
    }
  }

  lemma HoldersMoved(requests: map<nat, Request>, r: nat, pc: Pc, e: nat)
    requires r in requests
    ensures var moved := Holders(requests[r := requests[r].(pc := pc)], e);
            && moved == (if LeaseOf(pc, e) then Holders(requests, e) + {r} else Holders(requests, e) - {r})
            && |moved| == |Holders(requests, e)| + (if LeaseOf(pc, e) then 1 else 0)
                          - (if LeaseOf(requests[r].pc, e) then 1 else 0)
  {
    var moved := Holders(requests[r := requests[r].(pc := pc)], e);
    var held := Holders(requests, e);
    assert r in held <==> LeaseOf(requests[r].pc, e);
    if LeaseOf(pc, e) { assert moved == held + {r}; } else { assert moved == held - {r}; }
  }

  lemma ArriveKeeps(s: Registry, r: nat, svc: ServiceConfig, fallbacks: seq<ServiceConfig>)
    requires Invariant(s) && r !in s.requests
    ensures Invariant(Apply(s, Arrive(r, svc, fallbacks)))
  {
    var t := Apply(s, Arrive(r, svc, fallbacks));
    forall e | 0 <= e < |t.shared.entries| ensures EntryOk(t, e) {
      assert EntryOk(s, e);
      assert Holders(t.requests, e) == Holders(s.requests, e);
    }
    forall x | x in t.requests ensures RequestOk(t, x) {
      if x != r { assert RequestOk(s, x); }
    }
  }

  /** The request neither has nor had a lease. */
  predicate Leaseless(pc: Pc) {
    !pc.Built? && !pc.Holding? && !pc.Released?
  }

  /** A step that only moves request r between leaseless places, taking or giving up the
      build lock on the way. */
  lemma MoveKeeps(s: Registry, r: nat, pc: Pc, lock: Option<nat>)
    requires Invariant(s) && r in s.requests && Leaseless(pc) && Leaseless(s.requests[r].pc)
    requires lock == if HoldsBuildLock(pc) then Some(r) else if HoldsBuildLock(s.requests[r].pc) then None else s.buildLock
    requires HoldsBuildLock(pc) && !HoldsBuildLock(s.requests[r].pc) ==> s.buildLock == None
    requires pc.Building? ==> CachedMatch(s.shared, s.requests[r].svc, s.requests[r].fallbacks) == None
    ensures Invariant(s.(buildLock := lock, requests := Moved(s, r, pc)))
  {
    var t := s.(buildLock := lock, requests := Moved(s, r, pc));
    assert RequestOk(s, r);
    forall x | x in t.requests ensures RequestOk(t, x) {
      assert RequestOk(s, x);
    }
    forall e | 0 <= e < |t.shared.entries| ensures EntryOk(t, e) {
      assert EntryOk(s, e);
      HoldersMoved(s.requests, r, pc, e);
      assert Unpublished(t, e) == Unpublished(s, e);
    }
  }

  /** A cached entry is leased to a request that had no lease. */
  lemma LeaseCachedKeeps(s: Registry, r: nat, e: nat, lock: Option<nat>)
    requires Invariant(s) && r in s.requests && Leaseless(s.requests[r].pc) && !s.requests[r].pc.Building?
    requires CachedMatch(s.shared, s.requests[r].svc, s.requests[r].fallbacks) == Some(e)
    requires lock == if s.requests[r].pc.Locked? then None else s.buildLock
    ensures Invariant(s.(shared := AddLease(s.shared, e), buildLock := lock, requests := Moved(s, r, Holding(e))))
  {
    var t := s.(shared := AddLease(s.shared, e), buildLock := lock, requests := Moved(s, r, Holding(e)));
    assert RequestOk(s, r);
    LeaseKeepsMatches(s.shared, e);
    forall x | x in t.requests ensures RequestOk(t, x) {
      assert RequestOk(s, x);
    }
    forall f | 0 <= f < |t.shared.entries| ensures EntryOk(t, f) {
      assert EntryOk(s, f);
      LeaseKeepsEntry(s, r, e, lock, f);
    }
  }

  lemma LeaseKeepsEntry(s: Registry, r: nat, e: nat, lock: Option<nat>, f: nat)
    requires ShapeOk(s) && r in s.requests && RequestOk(s, r) && f < |s.shared.entries| && EntryOk(s, f)
    requires Leaseless(s.requests[r].pc) && !s.requests[r].pc.Building?
    requires CachedMatch(s.shared, s.requests[r].svc, s.requests[r].fallbacks) == Some(e)
    requires lock == if s.requests[r].pc.Locked? then None else s.buildLock
    ensures EntryOk(s.(shared := AddLease(s.shared, e), buildLock := lock, requests := Moved(s, r, Holding(e))), f)
  {
    var t := s.(shared := AddLease(s.shared, e), buildLock := lock, requests := Moved(s, r, Holding(e)));
    HoldersMoved(s.requests, r, Holding(e), f);
    assert Unpublished(t, f) == Unpublished(s, f);
  }

  /** Taking or dropping a lease changes no configuration. */
  lemma LeaseKeepsMatches(sh: Shared, e: nat)
    requires Indexed(sh) && e < |sh.entries|
    ensures Indexed(AddLease(sh, e))
    ensures forall svc, fallbacks :: CachedMatch(AddLease(sh, e), svc, fallbacks) == CachedMatch(sh, svc, fallbacks)
    ensures sh.entries[e].inUse > 0 ==> Indexed(DropLease(sh, e))
    ensures sh.entries[e].inUse > 0 ==>
              forall svc, fallbacks :: CachedMatch(DropLease(sh, e), svc, fallbacks) == CachedMatch(sh, svc, fallbacks)
  {
  }

  lemma BuildKeeps(s: Registry, r: nat)
    requires Invariant(s) && At(s, r, Building)
    ensures Invariant(Apply(s, BuildSucceeds(r)))
  {
    var t := Apply(s, BuildSucceeds(r));
    var n := |s.shared.entries|;
    assert RequestOk(s, r);
    forall x | x in t.requests ensures RequestOk(t, x) {
      assert RequestOk(s, x);
    }
    NoHoldersBeyond(s, n);
    forall f | 0 <= f < |t.shared.entries| ensures EntryOk(t, f) {
      HoldersMoved(s.requests, r, Built(n), f);
      if f < n {
        assert EntryOk(s, f);
        assert !Unpublished(t, f) && !Unpublished(s, f);
      } else {
        assert !IsCached(t.shared, n) && Unpublished(t, n);
      }
    }
  }

  lemma NoHoldersBeyond(s: Registry, n: nat)
    requires Invariant(s) && n == |s.shared.entries|
    ensures Holders(s.requests, n) == {}
  {
    forall r | r in s.requests ensures !LeaseOf(s.requests[r].pc, n) {
      assert RequestOk(s, r);
    }
  }

  /** Publishing e puts it in the cache and retires exactly the entry it displaces. */
  lemma PublishMoves(sh: Shared, e: nat, f: nat)
    requires Indexed(sh) && e < |sh.entries| && f < |sh.entries|
    ensures var sh' := Publish(sh, e);
            var displaced := IsCached(sh, f) && sh.entries[f].svc.id == sh.entries[e].svc.id;
            && Indexed(sh') && sh'.entries == sh.entries
            && (IsCached(sh', f) <==> f == e || (IsCached(sh, f) && !displaced))
            && (f in sh'.retired <==> f in sh.retired || displaced)
            && (f in sh'.drains <==> f in sh.drains || displaced)
            && (f in sh'.drains ==> sh'.drains[f] == if displaced then Draining else sh.drains[f])
  {
  }

  lemma PublishKeeps(s: Registry, r: nat)
    requires Invariant(s) && Enabled(s, PublishBuilt(r))
    ensures Invariant(Apply(s, PublishBuilt(r)))
  {
    var e := s.requests[r].pc.e;
    var t := Apply(s, PublishBuilt(r));
    assert RequestOk(s, r) && Unpublished(s, e) && EntryOk(s, e);
    PublishMoves(s.shared, e, e);
    forall x | x in t.requests ensures RequestOk(t, x) {
      assert RequestOk(s, x);
    }
    forall f | 0 <= f < |t.shared.entries| ensures EntryOk(t, f) {
      PublishKeepsEntry(s, r, f);
    }
  }

  lemma PublishKeepsEntry(s: Registry, r: nat, f: nat)
    requires Invariant(s) && Enabled(s, PublishBuilt(r)) && f < |s.shared.entries|
    ensures EntryOk(Apply(s, PublishBuilt(r)), f)
  {
    var e := s.requests[r].pc.e;
    assert RequestOk(s, r) && EntryOk(s, e) && EntryOk(s, f);
    assert Unpublished(s, f) <==> f == e;
    PublishMoves(s.shared, e, f);
    HoldersMoved(s.requests, r, Holding(e), f);
  }

  lemma ReleaseKeeps(s: Registry, r: nat)
    requires Invariant(s) && Enabled(s, Release(r)) && s.requests[r].pc.Holding?
    ensures Invariant(Apply(s, Release(r)))
  {
    var e := s.requests[r].pc.e;
    var t := Apply(s, Release(r));
    assert RequestOk(s, r);
    LeaseKeepsMatches(s.shared, e);
    forall x | x in t.requests ensures RequestOk(t, x) {
      assert RequestOk(s, x);
    }
    forall f | 0 <= f < |t.shared.entries| ensures EntryOk(t, f) {
      assert EntryOk(s, f);
      ReleaseKeepsEntry(s, r, f);
    }
  }

  lemma ReleaseKeepsEntry(s: Registry, r: nat, f: nat)
    requires ShapeOk(s) && r in s.requests && RequestOk(s, r) && f < |s.shared.entries| && EntryOk(s, f)
    requires Enabled(s, Release(r)) && s.requests[r].pc.Holding?
    ensures EntryOk(Apply(s, Release(r)), f)
  {
    var t := Apply(s, Release(r));
    HoldersMoved(s.requests, r, Released(s.requests[r].pc.e), f);
    assert Unpublished(t, f) == Unpublished(s, f);
  }

  lemma ReconcileKeeps(s: Registry, ids: set<string>)
    requires Invariant(s)
    ensures Invariant(s.(shared := Evict(s.shared, ids)))
  {
    var t := s.(shared := Evict(s.shared, ids));
    forall e | 0 <= e < |t.shared.entries| ensures EntryOk(t, e) {
      assert EntryOk(s, e);
      EvictMoves(s.shared, ids, e);
      assert Unpublished(t, e) == Unpublished(s, e);
    }
    forall r | r in t.requests ensures RequestOk(t, r) {
      assert RequestOk(s, r);
    }
  }

  /** Evicting moves the entries cached under ids, and no others, from the cache to the
      retired entries. */
  lemma EvictMoves(sh: Shared, ids: set<string>, e: nat)
    requires Indexed(sh) && e < |sh.entries|
    ensures var sh' := Evict(sh, ids);
            var moved := IsCached(sh, e) && sh.entries[e].svc.id in ids;
            && (IsCached(sh', e) <==> IsCached(sh, e) && !moved)
            && (e in sh'.retired <==> e in sh.retired || moved)
            && (e in sh'.drains <==> e in sh.drains || moved)
            && (e in sh'.drains ==> sh'.drains[e] == if moved then Draining else sh.drains[e])
  {
    var evicted := CachedUnder(sh, ids);
    if e in evicted {
      var id :| id in ids && id in sh.cached && sh.cached[id] == e;
      assert sh.entries[e].svc.id == id;
    }
    if IsCached(sh, e) && sh.entries[e].svc.id in ids {
      assert sh.cached[sh.entries[e].svc.id] in evicted;
    }
  }

  /** Steps of drain goroutines and of ShutdownServiceLLMs leave requests alone. */
  lemma RequestsUntouched(s: Registry, t: Registry)
    requires Invariant(s) && t.requests == s.requests && t.buildLock == s.buildLock
    requires Indexed(t.shared) && |t.shared.entries| == |s.shared.entries|
    requires t.shared.cached == s.shared.cached || t.shared.cached == map[]
    requires forall e :: 0 <= e < |s.shared.entries| ==>
               t.shared.entries[e].svc == s.shared.entries[e].svc && t.shared.entries[e].fallbacks == s.shared.entries[e].fallbacks
    ensures forall r :: r in t.requests ==> RequestOk(t, r)
    ensures forall e :: 0 <= e < |s.shared.entries| ==> Unpublished(t, e) == Unpublished(s, e)
  {
    forall r | r in t.requests ensures RequestOk(t, r) {
      assert RequestOk(s, r);
    }
  }

  lemma DrainKeeps(s: Registry, step: Step)
    requires Invariant(s) && Enabled(s, step) && (step.DrainWaits? || step.DrainShutsDown? || step.DrainForgets?)
    ensures Invariant(Apply(s, step))
  {
    var t := Apply(s, step);
    RequestsUntouched(s, t);
    forall e | 0 <= e < |t.shared.entries| ensures EntryOk(t, e) {
      assert EntryOk(s, e);
    }
  }

  lemma CollectKeeps(s: Registry)
    requires Invariant(s)
    ensures Invariant(Apply(s, CollectAll))
  {
    var t := Apply(s, CollectAll);
    RequestsUntouched(s, t);
    forall e | 0 <= e < |t.shared.entries| ensures EntryOk(t, e) {
      assert EntryOk(s, e);
      if IsCached(s.shared, e) { assert e in Owned(s.shared); }
    }
  }

  lemma ShutNextKeeps(s: Registry, e: nat)
    requires Invariant(s) && Enabled(s, ShutNext(e))
    ensures Invariant(Apply(s, ShutNext(e)))
  {
    var t := Apply(s, ShutNext(e));
    RequestsUntouched(s, t);
    forall f | 0 <= f < |t.shared.entries| ensures EntryOk(t, f) {
      assert EntryOk(s, f);
    }
  }

  lemma StepKeepsInvariant(s: Registry, step: Step)
    requires Invariant(s) && Enabled(s, step)
    ensures Invariant(Apply(s, step))
  {
    match step
    case Arrive(r, svc, fallbacks) => ArriveKeeps(s, r, svc, fallbacks);
    case LookUp(r) =>
      assert RequestOk(s, r);
      var e := CachedMatch(s.shared, s.requests[r].svc, s.requests[r].fallbacks);
      if e.Some? { LeaseCachedKeeps(s, r, e.value, s.buildLock); } else { MoveKeeps(s, r, Waiting, s.buildLock); }
    case TakeBuildLock(r) => MoveKeeps(s, r, Locked, Some(r));
    case Recheck(r) =>
      assert RequestOk(s, r);
      var e := CachedMatch(s.shared, s.requests[r].svc, s.requests[r].fallbacks);
      if e.Some? { LeaseCachedKeeps(s, r, e.value, None); } else { MoveKeeps(s, r, Building, s.buildLock); }
    case BuildFails(r) => MoveKeeps(s, r, Failed, None);
    case BuildSucceeds(r) => BuildKeeps(s, r);
    case PublishBuilt(r) => PublishKeeps(s, r);
    case Release(r) => if s.requests[r].pc.Holding? { ReleaseKeeps(s, r); }
    case Reconcile(services) => ReconcileKeeps(s, Outdated(s.shared, FirstById(services)));
    case CollectAll => CollectKeeps(s);
    case ShutNext(e) => ShutNextKeeps(s, e);
    case _ => DrainKeeps(s, step);
  }

  lemma RunKeepsInvariant(s: Registry, steps: seq<Step>, t: Registry)
    requires Invariant(s) && Reaches(s, steps, t)
    ensures Invariant(t)
    decreases |steps|
  {
    if steps != [] {
      StepKeepsInvariant(s, steps[0]);
      RunKeepsInvariant(Apply(s, steps[0]), steps[1..], t);
    }
  }

  // ------------------------------------------------------------- what it gives

  /** In every run, deactivation included: a client is shut down at most once, until then
      somebody owns it, its lease count is the number of unreleased leases, and whoever
      leases it asked for exactly its configuration. */
  lemma EveryClientIsAccountedFor(steps: seq<Step>, t: Registry, e: nat)
    requires Reaches(EMPTY, steps, t) && e < |t.shared.entries|
    ensures t.shared.entries[e].shutdowns <= 1
    ensures t.shared.entries[e].shutdowns == 0 ==>
              IsCached(t.shared, e) || e in t.shared.retired || e in t.doomed || Unpublished(t, e)
    ensures t.shared.entries[e].inUse == |Holders(t.requests, e)|
    ensures forall r :: r in Holders(t.requests, e) ==>
              t.shared.entries[e].svc == t.requests[r].svc && t.shared.entries[e].fallbacks == t.requests[r].fallbacks
  {
    RunKeepsInvariant(EMPTY, steps, t);
    assert EntryOk(t, e);
    forall r | r in Holders(t.requests, e)
      ensures t.shared.entries[e].svc == t.requests[r].svc && t.shared.entries[e].fallbacks == t.requests[r].fallbacks
    {
      assert RequestOk(t, r);
    }
  }

  /** After a reconciliation only those clients are cached whose service and fallback chain are
      what is configured, whatever happened before; the others are retired. */
  lemma ReconcileKeepsTheConfigured(s: Registry, services: seq<ServiceConfig>, id: string)
    requires Invariant(s)
    ensures Enabled(s, Reconcile(services))
    ensures var sh, sh' := s.shared, Apply(s, Reconcile(services)).shared;
            && sh'.entries == sh.entries
            && (id in sh'.cached <==>
                  && id in sh.cached && id in FirstById(services)
                  && FirstById(services)[id] == sh.entries[sh.cached[id]].svc
                  && FallbackChain(FirstById(services), id) == Ok(sh.entries[sh.cached[id]].fallbacks))
            && (id in sh'.cached ==> sh'.cached[id] == sh.cached[id])
            && (id in sh.cached && id !in sh'.cached ==> sh.cached[id] in sh'.retired)
  {
  }

  /** No deactivation has collected anything, and only idle evicted clients are shut down. */
  ghost predicate Undisturbed(s: Registry) {
    && s.doomed == {}
    && forall e :: 0 <= e < |s.shared.entries| && s.shared.entries[e].shutDone ==>
         !IsCached(s.shared, e) && s.shared.entries[e].inUse == 0
  }

  lemma StepKeepsUndisturbed(s: Registry, step: Step)
    requires Invariant(s) && Undisturbed(s) && Enabled(s, step) && !step.CollectAll?
    ensures Undisturbed(Apply(s, step))
  {
    var t := Apply(s, step);
    forall e | 0 <= e < |t.shared.entries| && t.shared.entries[e].shutDone
      ensures !IsCached(t.shared, e) && t.shared.entries[e].inUse == 0
    {
      if e < |s.shared.entries| { StepKeepsIdle(s, step, e); }
    }
  }

  lemma StepKeepsIdle(s: Registry, step: Step, e: nat)
    requires Invariant(s) && Undisturbed(s) && Enabled(s, step) && !step.CollectAll? && e < |s.shared.entries|
    ensures var t := Apply(s, step);
            e < |t.shared.entries| && (t.shared.entries[e].shutDone ==> !IsCached(t.shared, e) && t.shared.entries[e].inUse == 0)
  {
    if step.Reconcile? {
      EvictMoves(s.shared, Outdated(s.shared, FirstById(step.services)), e);
    } else if step.PublishBuilt? {
      PublishKeepsIdle(s, step.r, e);
    } else if step.DrainWaits? || step.DrainShutsDown? || step.DrainForgets? || step.ShutNext? {
      ShuttingKeepsIdle(s, step, e);
    } else {
      RequestKeepsIdle(s, step, e);
    }
  }

  lemma ShuttingKeepsIdle(s: Registry, step: Step, e: nat)
    requires Invariant(s) && Undisturbed(s) && Enabled(s, step) && e < |s.shared.entries|
    requires step.DrainWaits? || step.DrainShutsDown? || step.DrainForgets? || step.ShutNext?
    ensures var t := Apply(s, step);
            e < |t.shared.entries| && (t.shared.entries[e].shutDone ==> !IsCached(t.shared, e) && t.shared.entries[e].inUse == 0)
  {
    assert EntryOk(s, e);
  }

  lemma RequestKeepsIdle(s: Registry, step: Step, e: nat)
    requires Invariant(s) && Undisturbed(s) && Enabled(s, step) && e < |s.shared.entries|
    requires !step.DrainWaits? && !step.DrainShutsDown? && !step.DrainForgets? && !step.ShutNext?
    requires !step.Reconcile? && !step.PublishBuilt? && !step.CollectAll?
    ensures var t := Apply(s, step);
            e < |t.shared.entries| && (t.shared.entries[e].shutDone ==> !IsCached(t.shared, e) && t.shared.entries[e].inUse == 0)
  {
  }

  lemma PublishKeepsIdle(s: Registry, r: nat, e: nat)
    requires Invariant(s) && Undisturbed(s) && Enabled(s, PublishBuilt(r)) && e < |s.shared.entries|
    ensures var t := Apply(s, PublishBuilt(r));
            e < |t.shared.entries| && (t.shared.entries[e].shutDone ==> !IsCached(t.shared, e) && t.shared.entries[e].inUse == 0)
  {
    assert EntryOk(s, e) && RequestOk(s, r);
  }

  lemma RunKeepsUndisturbed(s: Registry, steps: seq<Step>, t: Registry)
    requires Invariant(s) && Undisturbed(s) && Reaches(s, steps, t)
    requires forall step :: step in steps ==> !step.CollectAll?
    ensures Undisturbed(t)
    decreases |steps|
  {
    if steps != [] {
      assert !steps[0].CollectAll?;
      StepKeepsInvariant(s, steps[0]);
      StepKeepsUndisturbed(s, steps[0]);
      RunKeepsUndisturbed(Apply(s, steps[0]), steps[1..], t);
    }
  }

  /** Short of deactivation, no client is shut down while a request holds a lease on it,
      while it is being published, or while it is cached. */
  lemma LeasedClientsStayUp(steps: seq<Step>, t: Registry, e: nat)
    requires Reaches(EMPTY, steps, t) && e < |t.shared.entries|
    requires forall step :: step in steps ==> !step.CollectAll?
    requires Holders(t.requests, e) != {} || IsCached(t.shared, e)
    ensures t.shared.entries[e].shutdowns == 0
  {
    RunKeepsInvariant(EMPTY, steps, t);
    RunKeepsUndisturbed(EMPTY, steps, t);
    assert EntryOk(t, e);
    if Holders(t.requests, e) != {} {
      var r :| r in Holders(t.requests, e);
      assert |Holders(t.requests, e)| > 0;
    }
  }

  /** No request can reach e any more. */
  predicate Gone(s: Registry, e: nat)
    requires e < |s.shared.entries|
  {
    !IsCached(s.shared, e) && !Unpublished(s, e)
  }

  lemma GoneStepGainsNoLease(s: Registry, step: Step, e: nat)
    requires Invariant(s) && Enabled(s, step) && e < |s.shared.entries| && Gone(s, e)
    ensures var t := Apply(s, step);
            && e < |t.shared.entries| && Gone(t, e)
            && Holders(t.requests, e) <= Holders(s.requests, e)
  {
    if step.Reconcile? {
      EvictMoves(s.shared, Outdated(s.shared, FirstById(step.services)), e);
    } else if step.PublishBuilt? || step.BuildSucceeds? {
      assert RequestOk(s, step.r);
    } else {
      GoneStaysGone(s, step, e);
    }
  }

  lemma GoneStaysGone(s: Registry, step: Step, e: nat)
    requires Enabled(s, step) && e < |s.shared.entries| && Gone(s, e)
    requires !step.Reconcile? && !step.PublishBuilt? && !step.BuildSucceeds?
    ensures var t := Apply(s, step);
            && e < |t.shared.entries| && Gone(t, e)
            && Holders(t.requests, e) <= Holders(s.requests, e)
  {
  }

  /** From the moment an entry is retired it never gains a lease, so its goroutine's wait
      cannot race a new lease, whatever happens in between. */
  lemma RetiredNeverGainsLease(s: Registry, steps: seq<Step>, t: Registry, e: nat)
    requires Invariant(s) && Reaches(s, steps, t)
    requires e < |s.shared.entries| && Gone(s, e)
    ensures e < |t.shared.entries| && Gone(t, e)
    ensures Holders(t.requests, e) <= Holders(s.requests, e)
    decreases |steps|
  {
    if steps != [] {
      StepKeepsInvariant(s, steps[0]);
      GoneStepGainsNoLease(s, steps[0], e);
      RetiredNeverGainsLease(Apply(s, steps[0]), steps[1..], t, e);
    }
  }

  lemma RetiredIsGone(s: Registry, e: nat)
    requires Invariant(s) && (e in s.shared.retired || e in s.shared.drains || e in s.doomed)
    ensures e < |s.shared.entries| && Gone(s, e)
  {
    assert EntryOk(s, e);
  }

  /** A retired entry whose leases are released can be shut down by its goroutine alone. */
  lemma IdleRetiredDrains(s: Registry, e: nat) returns (steps: seq<Step>, t: Registry)
    requires Invariant(s) && e in s.shared.retired
    requires e < |s.shared.entries| && Holders(s.requests, e) == {}
    ensures Reaches(s, steps, t) && |steps| <= 3
    ensures |t.shared.entries| == |s.shared.entries| && t.shared.entries[e].shutdowns == 1 && e !in t.shared.retired
  {
    assert EntryOk(s, e);
    if s.shared.drains[e] == Draining {
      var a := Apply(s, DrainWaits(e));
      StepKeepsInvariant(s, DrainWaits(e));
      assert EntryOk(a, e);
      steps, t := DrainedEnds(a, e);
      ReachesCons(s, DrainWaits(e), steps, t);
      steps := [DrainWaits(e)] + steps;
    } else {
      steps, t := DrainedEnds(s, e);
    }
  }

  lemma DrainedEnds(s: Registry, e: nat) returns (steps: seq<Step>, t: Registry)
    requires Invariant(s) && e < |s.shared.entries| && e in s.shared.drains && !s.shared.drains[e].Draining?
    ensures Reaches(s, steps, t) && |steps| <= 2
    ensures |t.shared.entries| == |s.shared.entries| && t.shared.entries[e].shutdowns == 1 && e !in t.shared.retired
  {
    if s.shared.drains[e] == Drained {
      var b := Apply(s, DrainShutsDown(e));
      StepKeepsInvariant(s, DrainShutsDown(e));
      steps, t := ShutOffEnds(b, e);
      ReachesCons(s, DrainShutsDown(e), steps, t);
      steps := [DrainShutsDown(e)] + steps;
    } else {
      steps, t := ShutOffEnds(s, e);
    }
  }

  lemma ShutOffEnds(s: Registry, e: nat) returns (steps: seq<Step>, t: Registry)
    requires Invariant(s) && e < |s.shared.entries| && e in s.shared.drains && s.shared.drains[e].ShutOff?
    ensures Reaches(s, steps, t) && |steps| <= 1
    ensures |t.shared.entries| == |s.shared.entries| && t.shared.entries[e].shutdowns == 1 && e !in t.shared.retired
  {
    assert EntryOk(s, e);
    steps, t := [DrainForgets(e)], Apply(s, DrainForgets(e));
    assert steps[1..] == [];
  }

  lemma ReachesCons(s: Registry, step: Step, steps: seq<Step>, t: Registry)
    requires Enabled(s, step) && Reaches(Apply(s, step), steps, t)
    ensures Reaches(s, [step] + steps, t)
  {
    assert ([step] + steps)[1..] == steps;
  }

  lemma ReachesConcat(s: Registry, xs: seq<Step>, u: Registry, ys: seq<Step>, t: Registry)
    requires Reaches(s, xs, u) && Reaches(u, ys, t)
    ensures Reaches(s, xs + ys, t)
    decreases |xs|
  {
    if xs == [] {
      assert xs + ys == ys;
    } else {
      ReachesConcat(Apply(s, xs[0]), xs[1..], u, ys, t);
      assert (xs + ys)[1..] == xs[1..] + ys;
    }
  }

  /** ShutdownServiceLLMs shuts down every client that existed when it was called, leases
      or not, except one still being built: that one is published afterwards. */
  lemma DeactivationReachesEveryClient(s: Registry, steps: seq<Step>, t: Registry, e: nat)
    requires Invariant(s) && Reaches(Apply(s, CollectAll), steps, t)
    requires e < |s.shared.entries| && !Unpublished(s, e)
    ensures e < |t.shared.entries|
    ensures e !in t.doomed ==> t.shared.entries[e].shutdowns == 1
  {
    var u := Apply(s, CollectAll);
    StepKeepsInvariant(s, CollectAll);
    assert EntryOk(s, e) && EntryOk(u, e);
    if !s.shared.entries[e].shutDone && IsCached(s.shared, e) { assert e in Owned(s.shared); }
    DoomedUntilShutDown(u, steps, t, e);
  }

  lemma DoomedUntilShutDown(s: Registry, steps: seq<Step>, t: Registry, e: nat)
    requires Invariant(s) && Reaches(s, steps, t) && e < |s.shared.entries|
    requires e in s.doomed || s.shared.entries[e].shutDone
    ensures e < |t.shared.entries|
    ensures e in t.doomed || t.shared.entries[e].shutdowns == 1
    decreases |steps|
  {
    assert EntryOk(s, e);
    if steps != [] {
      StepKeepsInvariant(s, steps[0]);
      StepKeepsDoomed(s, steps[0], e);
      DoomedUntilShutDown(Apply(s, steps[0]), steps[1..], t, e);
    }
  }

  lemma StepKeepsDoomed(s: Registry, step: Step, e: nat)
    requires Enabled(s, step) && e < |s.shared.entries| && (e in s.doomed || s.shared.entries[e].shutDone)
    ensures var t := Apply(s, step); e < |t.shared.entries| && (e in t.doomed || t.shared.entries[e].shutDone)
  {
  }

  // ------------------------------------------------- equal requests build one client

  /** The request has no client yet, or has one that is not published. */
  predicate Pending(pc: Pc) {
    !pc.Holding? && !pc.Released? && !pc.Failed?
  }

  /** Every request for this service that is pending asks for this configuration. Requests that
      got a client earlier may have asked for others, and may still hold it. */
  ghost predicate OneConfig(s: Registry, svc: ServiceConfig, fallbacks: seq<ServiceConfig>) {
    forall r :: r in s.requests && s.requests[r].svc.id == svc.id && Pending(s.requests[r].pc) ==>
      s.requests[r].svc == svc && s.requests[r].fallbacks == fallbacks
  }

  /** A request that arrives for this service asks for this configuration. */
  predicate ArrivesWith(step: Step, svc: ServiceConfig, fallbacks: seq<ServiceConfig>) {
    step.Arrive? && step.svc.id == svc.id ==> step.svc == svc && step.fallbacks == fallbacks
  }

  lemma StepKeepsOneConfig(s: Registry, step: Step, svc: ServiceConfig, fallbacks: seq<ServiceConfig>)
    requires Enabled(s, step) && OneConfig(s, svc, fallbacks) && ArrivesWith(step, svc, fallbacks)
    ensures OneConfig(Apply(s, step), svc, fallbacks)
  {
    forall r | r in Apply(s, step).requests ensures SamePending(s, step, r) {
      RequestStays(s, step, r);
    }
  }

  /** The request has just arrived, or it was there before, and pending if it is. */
  predicate SamePending(s: Registry, step: Step, r: nat)
    requires Enabled(s, step) && r in Apply(s, step).requests
  {
    var q' := Apply(s, step).requests[r];
    if r in s.requests then
      var q := s.requests[r];
      q'.svc == q.svc && q'.fallbacks == q.fallbacks && (Pending(q'.pc) ==> Pending(q.pc))
    else step == Arrive(r, q'.svc, q'.fallbacks)
  }

  lemma RequestStays(s: Registry, step: Step, r: nat)
    requires Enabled(s, step) && r in Apply(s, step).requests
    ensures SamePending(s, step, r)
  {
  }

  /** A client for this configuration is cached or about to be published. */
  ghost predicate Present(s: Registry, svc: ServiceConfig, fallbacks: seq<ServiceConfig>) {
    exists e :: 0 <= e < |s.shared.entries| && Matches(s.shared.entries[e], svc, fallbacks) &&
      (IsCached(s.shared, e) || Unpublished(s, e))
  }

  /** How many clients were ever built for this configuration. */
  function Builds(entries: seq<Entry>, svc: ServiceConfig, fallbacks: seq<ServiceConfig>): nat {
    if entries == [] then 0
    else Builds(entries[..|entries| - 1], svc, fallbacks) +
         if Matches(entries[|entries| - 1], svc, fallbacks) then 1 else 0
  }

  lemma {:induction false} BuildsKept(a: seq<Entry>, b: seq<Entry>, svc: ServiceConfig, fallbacks: seq<ServiceConfig>)
    requires |a| == |b|
    requires forall i :: 0 <= i < |a| ==> a[i].svc == b[i].svc && a[i].fallbacks == b[i].fallbacks
    ensures Builds(a, svc, fallbacks) == Builds(b, svc, fallbacks)
  {
    if a != [] {
      BuildsKept(a[..|a| - 1], b[..|b| - 1], svc, fallbacks);
    }
  }

  lemma PublishStaysPresent(s: Registry, r: nat, svc: ServiceConfig, fallbacks: seq<ServiceConfig>)
    requires Invariant(s) && Enabled(s, PublishBuilt(r))
    requires OneConfig(s, svc, fallbacks) && Present(s, svc, fallbacks)
    ensures Present(Apply(s, PublishBuilt(r)), svc, fallbacks)
  {
    var t := Apply(s, PublishBuilt(r));
    var e :| 0 <= e < |s.shared.entries| && Matches(s.shared.entries[e], svc, fallbacks) &&
             (IsCached(s.shared, e) || Unpublished(s, e));
    assert RequestOk(s, r);
    var f := s.requests[r].pc.e;
    if s.shared.entries[f].svc.id == svc.id {
      assert Matches(t.shared.entries[f], svc, fallbacks) && IsCached(t.shared, f);
    } else {
      assert Matches(t.shared.entries[e], svc, fallbacks) && IsCached(t.shared, e);
    }
  }

  /** Apart from publishing, reconciling and deactivation, a step keeps an entry's
      configuration, its place in the cache and its being unpublished. */
  lemma PlaceKept(s: Registry, step: Step, e: nat)
    requires Invariant(s) && Enabled(s, step) && !step.Reconcile? && !step.CollectAll? && !step.PublishBuilt?
    requires e < |s.shared.entries|
    ensures var t := Apply(s, step);
            && e < |t.shared.entries|
            && Matches(t.shared.entries[e], s.shared.entries[e].svc, s.shared.entries[e].fallbacks)
            && t.shared.cached == s.shared.cached
            && (Unpublished(s, e) ==> Unpublished(t, e))
  {
    if Unpublished(s, e) { StaysUnpublished(s, step, e); }
  }

  lemma StaysUnpublished(s: Registry, step: Step, e: nat)
    requires Invariant(s) && Enabled(s, step) && !step.PublishBuilt? && Unpublished(s, e)
    ensures Unpublished(Apply(s, step), e)
  {
    forall r | r in s.requests && HoldsBuildLock(s.requests[r].pc) ensures s.buildLock == Some(r) {
      assert RequestOk(s, r);
    }
  }

  lemma PresentStays(s: Registry, step: Step, svc: ServiceConfig, fallbacks: seq<ServiceConfig>)
    requires Invariant(s) && Enabled(s, step) && !step.Reconcile? && !step.CollectAll?
    requires OneConfig(s, svc, fallbacks) && Present(s, svc, fallbacks)
    ensures Present(Apply(s, step), svc, fallbacks)
  {
    if step.PublishBuilt? {
      PublishStaysPresent(s, step.r, svc, fallbacks);
    } else {
      var e :| 0 <= e < |s.shared.entries| && Matches(s.shared.entries[e], svc, fallbacks) &&
               (IsCached(s.shared, e) || Unpublished(s, e));
      PlaceKept(s, step, e);
      assert IsCached(s.shared, e) ==> IsCached(Apply(s, step).shared, e);
    }
  }

  lemma BuildingMeansAbsent(s: Registry, r: nat)
    requires Invariant(s) && At(s, r, Building)
    ensures !Present(s, s.requests[r].svc, s.requests[r].fallbacks)
  {
    var q := s.requests[r];
    assert RequestOk(s, r);
    forall e | 0 <= e < |s.shared.entries| && Matches(s.shared.entries[e], q.svc, q.fallbacks)
      ensures !IsCached(s.shared, e) && !Unpublished(s, e)
    {
    }
  }

  /** While a configuration is present no second client is built for it. */
  lemma StepBuilds(s: Registry, step: Step, svc: ServiceConfig, fallbacks: seq<ServiceConfig>)
    requires Invariant(s) && Enabled(s, step) && !step.Reconcile? && !step.CollectAll?
    requires OneConfig(s, svc, fallbacks)
    ensures var t := Apply(s, step);
            var built := Builds(t.shared.entries, svc, fallbacks) - Builds(s.shared.entries, svc, fallbacks);
            && 0 <= built <= (if Present(s, svc, fallbacks) then 0 else 1)
            && (built == 1 ==> Present(t, svc, fallbacks))
  {
    if step.BuildSucceeds? {
      BuildBuilds(s, step.r, svc, fallbacks);
    } else {
      BuildsKept(s.shared.entries, Apply(s, step).shared.entries, svc, fallbacks);
    }
  }

  lemma BuildBuilds(s: Registry, r: nat, svc: ServiceConfig, fallbacks: seq<ServiceConfig>)
    requires Invariant(s) && At(s, r, Building)
    ensures var t := Apply(s, BuildSucceeds(r));
            var built := Builds(t.shared.entries, svc, fallbacks) - Builds(s.shared.entries, svc, fallbacks);
            && 0 <= built <= (if Present(s, svc, fallbacks) then 0 else 1)
            && (built == 1 ==> Present(t, svc, fallbacks))
  {
    var t := Apply(s, BuildSucceeds(r));
    var n := |s.shared.entries|;
    assert t.shared.entries[..n] == s.shared.entries;
    if Matches(t.shared.entries[n], svc, fallbacks) {
      assert RequestOk(s, r);
      assert Unpublished(t, n);
      BuildingMeansAbsent(s, r);
    }
  }

  /** A burst of equal requests, with no reconciliation or deactivation between them,
      builds one client, and none if one was already there, whatever was asked for before. */
  lemma EqualRequestsBuildOneClient(
    s: Registry, steps: seq<Step>, t: Registry, svc: ServiceConfig, fallbacks: seq<ServiceConfig>)
    requires Invariant(s) && Reaches(s, steps, t)
    requires forall step :: step in steps ==> !step.Reconcile? && !step.CollectAll?
    requires OneConfig(s, svc, fallbacks) && forall step :: step in steps ==> ArrivesWith(step, svc, fallbacks)
    ensures var built := Builds(t.shared.entries, svc, fallbacks) - Builds(s.shared.entries, svc, fallbacks);
            0 <= built <= if Present(s, svc, fallbacks) then 0 else 1
    decreases |steps|
  {
    if steps != [] {
      var u := Apply(s, steps[0]);
      assert !steps[0].Reconcile? && !steps[0].CollectAll? && ArrivesWith(steps[0], svc, fallbacks);
      StepKeepsInvariant(s, steps[0]);
      StepKeepsOneConfig(s, steps[0], svc, fallbacks);
      StepBuilds(s, steps[0], svc, fallbacks);
      if Present(s, svc, fallbacks) { PresentStays(s, steps[0], svc, fallbacks); }
      EqualRequestsBuildOneClient(u, steps[1..], t, svc, fallbacks);
    }
  }

  // ------------------------------------------------------------ the registry object

  /** What a requester calls to release its client. */
  class Lease {
    const entry: nat
    var released: bool

    constructor (entry: nat)
      ensures this.entry == entry && !released
    {
      this.entry, released := entry, false;
    }
  }

  /** The registry's fields and lock-protected sections. */
  class ServiceLLMs {
    var entries: seq<Entry>
    var serviceLLMs: map<string, nat>
    var retiredServiceLLMs: set<nat>
    var drains: map<nat, Drain>

    constructor ()
      ensures State() == EMPTY.shared
    {
      entries, serviceLLMs, retiredServiceLLMs, drains := [], map[], {}, map[];
    }

    function State(): Shared
      reads this
    {
      Shared(entries, serviceLLMs, retiredServiceLLMs, drains)
    }

    method LeaseCached(svc: ServiceConfig, fallbacks: seq<ServiceConfig>) returns (e: Option<nat>)
      requires Indexed(State())
      modifies this
      ensures e == CachedMatch(old(State()), svc, fallbacks)
      ensures e.Some? <==>
                && svc.id in old(serviceLLMs)
                && old(entries)[old(serviceLLMs)[svc.id]].svc == svc
                && old(entries)[old(serviceLLMs)[svc.id]].fallbacks == fallbacks
      ensures e.Some? ==> e.value == old(serviceLLMs)[svc.id] && State() == AddLease(old(State()), e.value)
      ensures e.Some? ==> entries[e.value] == old(entries)[e.value].(inUse := old(entries)[e.value].inUse + 1)
      ensures e.None? ==> State() == old(State())
    {
      if svc.id !in serviceLLMs { return None; }
      var found := serviceLLMs[svc.id];
      if entries[found].svc != svc || entries[found].fallbacks != fallbacks { return None; }
      entries := entries[found := entries[found].(inUse := entries[found].inUse + 1)];
      e := Some(found);
    }

    /** A client was built; its builder holds the first lease. */
    method NewEntry(svc: ServiceConfig, fallbacks: seq<ServiceConfig>) returns (e: nat)
      modifies this
      ensures State() == AddBuilt(old(State()), svc, fallbacks) && e == |old(entries)|
    {
      e := |entries|;
      entries := entries + [Entry(svc, fallbacks, 1, false, 0)];
    }

    method RetireEntry(e: nat)
      modifies this`retiredServiceLLMs, this`drains
      ensures State() == Retire(old(State()), e)
    {
      retiredServiceLLMs := retiredServiceLLMs + {e};
      drains := drains[e := Draining];
    }

    method PublishEntry(e: nat)
      requires e < |entries|
      modifies this
      ensures State() == Publish(old(State()), e)
    {
      var id := entries[e].svc.id;
      if id in serviceLLMs {
        RetireEntry(serviceLLMs[id]);
      }
      serviceLLMs := serviceLLMs[id := e];
    }

    /** The first release of a lease drops it; further ones do nothing. */
    method ReleaseLease(lease: Lease)
      requires !lease.released ==> lease.entry < |entries| && entries[lease.entry].inUse > 0
      modifies this, lease
      ensures lease.released
      ensures State() == if old(lease.released) then old(State()) else DropLease(old(State()), lease.entry)
    {
      if lease.released { return; }
      lease.released := true;
      var e := lease.entry;
      entries := entries[e := entries[e].(inUse := entries[e].inUse - 1)];
    }

    method ShutdownNow(e: nat)
      requires e < |entries|
      modifies this`entries
      ensures State() == ShutDown(old(State()), e)
    {
      var entry := entries[e];
      if !entry.shutDone {
        entry := entry.(shutDone := true, shutdowns := entry.shutdowns + 1);
      }
      entries := entries[e := entry];
    }

    /** A leaseServiceLLM call that nothing interrupts: a matching client is shared,
        otherwise one is built and replaces what was cached under the service's ID. */
    method LeaseServiceLLM(svc: ServiceConfig, fallbacks: seq<ServiceConfig>, buildOk: bool) returns (e: Option<nat>)
      requires Indexed(State())
      modifies this
      ensures Indexed(State())
      ensures CachedMatch(old(State()), svc, fallbacks).Some? ==>
                e == CachedMatch(old(State()), svc, fallbacks) && State() == AddLease(old(State()), e.value)
      ensures CachedMatch(old(State()), svc, fallbacks).None? && !buildOk ==> e == None && State() == old(State())
      ensures CachedMatch(old(State()), svc, fallbacks).None? && buildOk ==>
                e == Some(|old(entries)|) && CachedMatch(State(), svc, fallbacks) == e &&
                State() == Publish(AddBuilt(old(State()), svc, fallbacks), |old(entries)|)
      ensures e.None? ==> !buildOk
      ensures e.Some? ==>
                && e.value < |entries| && svc.id in serviceLLMs && serviceLLMs[svc.id] == e.value
                && entries[e.value].svc == svc && entries[e.value].fallbacks == fallbacks && entries[e.value].inUse > 0
      ensures e.Some? && e.value < |old(entries)| ==> svc.id in old(serviceLLMs) && old(serviceLLMs)[svc.id] == e.value
      ensures e.Some? && e.value >= |old(entries)| ==>
                && entries == old(entries) + [Entry(svc, fallbacks, 1, false, 0)]
                && serviceLLMs == old(serviceLLMs)[svc.id := |old(entries)|]
                && (svc.id in old(serviceLLMs) ==>
                      && old(serviceLLMs)[svc.id] in retiredServiceLLMs
                      && var was := old(entries)[old(serviceLLMs)[svc.id]]; was.svc != svc || was.fallbacks != fallbacks)
    {
      e := LeaseCached(svc, fallbacks);
      if e.Some? { return; }
      if !buildOk { return; }
      var built := NewEntry(svc, fallbacks);
      PublishEntry(built);
      e := Some(built);
    }

    method ReconcileOne(id: string, byId: Services)
      requires Indexed(State()) && id in serviceLLMs
      modifies this
      ensures State() == ReconcileId(old(State()), byId, id)
    {
      var e := serviceLLMs[id];
      if id in byId && byId[id] == entries[e].svc {
        var chain := ResolveFallbackChain(id, byId);
        if chain == Ok(entries[e].fallbacks) { return; }
      }
      serviceLLMs := serviceLLMs - {id};
      RetireEntry(e);
    }

    method ReconcileServiceLLMs(services: seq<ServiceConfig>)
      requires Indexed(State())
      modifies this
      ensures State() == Evict(old(State()), Outdated(old(State()), FirstById(services)))
      ensures entries == old(entries)
      ensures forall id :: id in serviceLLMs <==>
                && id in old(serviceLLMs) && id in FirstById(services)
                && FirstById(services)[id] == entries[old(serviceLLMs)[id]].svc
                && FallbackChain(FirstById(services), id) == Ok(entries[old(serviceLLMs)[id]].fallbacks)
      ensures forall id :: id in serviceLLMs ==> serviceLLMs[id] == old(serviceLLMs)[id]
      ensures forall id :: id in old(serviceLLMs) && id !in serviceLLMs ==> old(serviceLLMs)[id] in retiredServiceLLMs
    {
      var byId := ServiceLookup(services);
      ghost var before := State();
      var left := serviceLLMs.Keys;
      ReconcileBegins(before, byId);
      while left != {}
        invariant left <= before.cached.Keys
        invariant State() == Reconciled(before, byId, left)
        decreases left
      {
        var id :| id in left;
        ReconcileGoesOn(before, byId, left, id);
        ReconcileOne(id, byId);
        left := left - {id};
      }
      assert Outdated(before, byId) - left == Outdated(before, byId);
    }

    /** Every client, cached or retired, is shut down; the two tables end empty. */
    method ShutdownServiceLLMs()
      requires forall e :: e in Owned(State()) ==> e < |entries|
      modifies this
      ensures serviceLLMs == map[] && retiredServiceLLMs == {} && |entries| == |old(entries)|
      ensures forall e :: 0 <= e < |entries| ==>
                entries[e] == if e in old(Owned(State())) then ShutEntry(old(entries[e])) else old(entries[e])
    {
      ghost var before := entries;
      var owned := (set id | id in serviceLLMs :: serviceLLMs[id]) + retiredServiceLLMs;
      serviceLLMs, retiredServiceLLMs := map[], {};
      var left := owned;
      assert owned == old(Owned(State()));
      while left != {}
        invariant left <= owned && serviceLLMs == map[] && retiredServiceLLMs == {} && |entries| == |before|
        invariant forall e :: 0 <= e < |entries| ==>
                    entries[e] == if e in owned - left then ShutEntry(before[e]) else before[e]
        decreases left
      {
        var e :| e in left;
        ShutdownNow(e);
        assert entries[e] == ShutEntry(before[e]);
        left := left - {e};
      }
    }
  }

  lemma EvictNothing(sh: Shared)
    ensures Evict(sh, {}) == sh
  {
    assert CachedUnder(sh, {}) == {} && sh.cached - {} == sh.cached;
  }

  lemma EvictOneMore(sh: Shared, ids: set<string>, id: string)
    requires id in sh.cached && id !in ids
    ensures var sh' := Evict(sh, ids);
            Evict(sh, ids + {id}) == Retire(sh'.(cached := sh'.cached - {id}), sh.cached[id])
  {
    CachedUnderOneMore(sh, ids, id);
    MinusOneMore(sh.cached, ids, id);
    DrainOneMore(CachedUnder(sh, ids), sh.cached[id], sh.drains);
  }

  lemma CachedUnderOneMore(sh: Shared, ids: set<string>, id: string)
    requires id in sh.cached
    ensures CachedUnder(sh, ids + {id}) == CachedUnder(sh, ids) + {sh.cached[id]}
  {
  }

  lemma MinusOneMore<V>(m: map<string, V>, ids: set<string>, id: string)
    ensures m - (ids + {id}) == (m - ids) - {id}
  {
  }

  /** The state of a reconciliation that has not looked at the IDs in left yet. */
  function Reconciled(sh: Shared, byId: Services, left: set<string>): Shared
    requires Indexed(sh)
  {
    Evict(sh, Outdated(sh, byId) - left)
  }

  /** Drops the entry cached under id unless it still is what byId configures. */
  function ReconcileId(sh: Shared, byId: Services, id: string): Shared
    requires Indexed(sh) && id in sh.cached
  {
    if Current(byId, id, sh.entries[sh.cached[id]]) then sh
    else Retire(sh.(cached := sh.cached - {id}), sh.cached[id])
  }

  lemma ReconcileBegins(sh: Shared, byId: Services)
    requires Indexed(sh)
    ensures Reconciled(sh, byId, sh.cached.Keys) == sh
  {
    assert Outdated(sh, byId) - sh.cached.Keys == {};
    EvictNothing(sh);
  }

  lemma ReconcileGoesOn(sh: Shared, byId: Services, left: set<string>, id: string)
    requires Indexed(sh) && id in sh.cached && id in left
    ensures var sh' := Reconciled(sh, byId, left);
            && Indexed(sh') && id in sh'.cached
            && Reconciled(sh, byId, left - {id}) == ReconcileId(sh', byId, id)
  {
    var ids := Outdated(sh, byId) - left;
    EvictOneMore(sh, ids, id);
    if id in Outdated(sh, byId) {
      assert Outdated(sh, byId) - (left - {id}) == ids + {id};
    } else {
      assert Outdated(sh, byId) - (left - {id}) == ids;
    }
  }

  lemma DrainOneMore(evicted: set<nat>, e: nat, drains: map<nat, Drain>)
    ensures (drains + map x | x in evicted + {e} :: Draining) == (drains + map x | x in evicted :: Draining)[e := Draining]
  {
  }
}
