/**
 Per-channel auto-reply settings: one shared table, one cache per cluster node,
 and invalidation messages between them (autoreply/service.go).

 The first part is the cluster as a state machine. Each operation of a node is two
 atomic steps under the node's writeMu, a database round-trip and then the update of
 the cache map, so the steps of different nodes interleave freely while one node's
 operations do not. The second part is the service object itself; its methods are the
 same steps, performed on its fields.
 */
module AutoReplyCache {
  import opened Wrappers

  type ChannelId = string
  type Mode = string

  datatype Setting = Setting(
    channelId: ChannelId, botId: string, mode: Mode,
    updatedBy: string, updateAt: int, instructions: string)

  /** What the current holder of a node's writeMu has read or written so far. */
  datatype Phase =
    | Free
    | Stored(setting: Setting)
    | Removed(channel: ChannelId)
    | Listed(rows: map<ChannelId, Setting>)
    | Fetched(channel: ChannelId, row: Option<Setting>)

  /** One node. modes are the modes its plugin version can store; toNotify are the
      completed writes whose broadcast has not been sent yet; inbox are the
      invalidations on their way to it. */
  datatype Node = Node(
    modes: set<Mode>,
    cache: map<ChannelId, Setting>,
    phase: Phase,
    toNotify: multiset<ChannelId>,
    inbox: multiset<ChannelId>)

  const CURRENT_MODES: set<Mode> := {"root_posts", "threads", "ambient", "ambient_threads"}

  function Servable(modes: set<Mode>, row: Option<Setting>): Option<Setting> {
    if row.Some? && row.value.mode in modes then row else None
  }

  function ServableRows(modes: set<Mode>, rows: map<ChannelId, Setting>): map<ChannelId, Setting> {
    map c | c in rows && rows[c].mode in modes :: rows[c]
  }

  /** The second half of an operation: update the cache map and unlock writeMu.
      A write leaves its broadcast to be sent after the lock is released. */
  function Finish(n: Node): Node {
    match n.phase
    case Free => n
    case Stored(s) =>
      n.(cache := n.cache[s.channelId := s], phase := Free, toNotify := n.toNotify + multiset{s.channelId})
    case Removed(c) =>
      n.(cache := n.cache - {c}, phase := Free, toNotify := n.toNotify + multiset{c})
    case Listed(rows) =>
      n.(cache := ServableRows(n.modes, rows), phase := Free)
    case Fetched(c, row) =>
      if Servable(n.modes, row).Some? then n.(cache := n.cache[c := row.value], phase := Free)
      else n.(cache := n.cache - {c}, phase := Free)
  }

  // ---------------------------------------------------------------- the cluster

  /** unsynced records, for the proof, the pairs whose invalidation was lost (a failed
      broadcast or a failed re-read) and that the node has not read since. */
  datatype Cluster = Cluster(
    table: map<ChannelId, Setting>,
    nodes: seq<Node>,
    unsynced: set<(nat, ChannelId)>)

  datatype Step =
    | SetWrite(i: nat, setting: Setting)
    | DeleteWrite(i: nat, channel: ChannelId)
    | LoadRead(i: nat)
    | RefreshRead(i: nat, channel: ChannelId)
    | RefreshFails(i: nat, channel: ChannelId)
    | Complete(i: nat)
    | Notify(i: nat, channel: ChannelId)
    | NotifyFails(i: nat, channel: ChannelId)

  predicate Enabled(s: Cluster, step: Step) {
    && step.i < |s.nodes|
    && var n := s.nodes[step.i];
       match step
       case SetWrite(_, setting) => n.phase.Free? && setting.channelId != "" && setting.mode in n.modes
       case DeleteWrite(_, c) => n.phase.Free? && c != ""
       case LoadRead(_) => n.phase.Free?
       case RefreshRead(_, c) => n.phase.Free? && c in n.inbox
       case RefreshFails(_, c) => n.phase.Free? && c in n.inbox
       case Complete(_) => !n.phase.Free?
       case Notify(_, c) => c in n.toNotify
       case NotifyFails(_, c) => c in n.toNotify
  }

  /** Every node but i receives an invalidation of c; i has sent it. */
  function Broadcast(nodes: seq<Node>, i: nat, c: ChannelId): (r: seq<Node>)
    ensures |r| == |nodes|
  {
    seq(|nodes|, j requires 0 <= j < |nodes| =>
      if j == i then nodes[j].(toNotify := nodes[j].toNotify - multiset{c})
      else nodes[j].(inbox := nodes[j].inbox + multiset{c}))
  }

  function Apply(s: Cluster, step: Step): Cluster
    requires Enabled(s, step)
  {
    var i := step.i;
    var n := s.nodes[i];
    match step
    case SetWrite(_, setting) =>
      s.(table := s.table[setting.channelId := setting], nodes := s.nodes[i := n.(phase := Stored(setting))],
         unsynced := s.unsynced - {(i, setting.channelId)})
    case DeleteWrite(_, c) =>
      s.(table := s.table - {c}, nodes := s.nodes[i := n.(phase := Removed(c))], unsynced := s.unsynced - {(i, c)})
    case LoadRead(_) =>
      s.(nodes := s.nodes[i := n.(phase := Listed(s.table))],
         unsynced := set p | p in s.unsynced && p.0 != i)
    case RefreshRead(_, c) =>
      s.(nodes := s.nodes[i := n.(phase := Fetched(c, Lookup(s.table, c)), inbox := n.inbox - multiset{c})],
         unsynced := s.unsynced - {(i, c)})
    case RefreshFails(_, c) =>
      s.(nodes := s.nodes[i := n.(inbox := n.inbox - multiset{c})], unsynced := s.unsynced + {(i, c)})
    case Complete(_) =>
      s.(nodes := s.nodes[i := Finish(n)])
    case Notify(_, c) =>
      s.(nodes := Broadcast(s.nodes, i, c))
    case NotifyFails(_, c) =>
      s.(nodes := s.nodes[i := n.(toNotify := n.toNotify - multiset{c})],
         unsynced := s.unsynced + (set j: nat | j < |s.nodes| && j != i :: (j, c)))
  }

  /** t is reached from s by performing steps in order. */
  predicate Reaches(s: Cluster, steps: seq<Step>, t: Cluster)
    decreases |steps|
  {
    if steps == [] then t == s
    else Enabled(s, steps[0]) && Reaches(Apply(s, steps[0]), steps[1..], t)
  }

  /** A cluster whose nodes have just started: empty caches, and every stored row
      still to be read by every node. */
  predicate Started(s: Cluster) {
    && (forall c :: c in s.table ==> s.table[c].channelId == c)
    && (forall i :: 0 <= i < |s.nodes| ==>
          s.nodes[i].cache == map[] && s.nodes[i].phase.Free? && s.nodes[i].toNotify == multiset{})
    && s.unsynced == set i: nat, c | i < |s.nodes| && c in s.table :: (i, c)
  }

  // ---------------------------------------------------------------- convergence

  /** Once its current operation finishes, node i serves for c what the table says. */
  predicate Agrees(s: Cluster, i: nat, c: ChannelId)
    requires i < |s.nodes|
  {
    Lookup(Finish(s.nodes[i]).cache, c) == Servable(s.nodes[i].modes, Lookup(s.table, c))
  }

  /** n has written c and not yet told its peers. */
  predicate OwesNotice(n: Node, c: ChannelId) {
    || c in n.toNotify
    || (n.phase.Stored? && n.phase.setting.channelId == c)
    || (n.phase.Removed? && n.phase.channel == c)
  }

  predicate PeerOwesNotice(s: Cluster, i: nat, c: ChannelId) {
    exists j :: 0 <= j < |s.nodes| && j != i && OwesNotice(s.nodes[j], c)
  }

  predicate Accounted(s: Cluster, i: nat, c: ChannelId)
    requires i < |s.nodes|
  {
    Agrees(s, i, c) || c in s.nodes[i].inbox || PeerOwesNotice(s, i, c) || (i, c) in s.unsynced
  }

  ghost predicate Invariant(s: Cluster) {
    && (forall c :: c in s.table ==> s.table[c].channelId == c)
    && (forall i, c :: 0 <= i < |s.nodes| ==> Accounted(s, i, c))
  }

  lemma StartedInvariant(s: Cluster)
    requires Started(s)
    ensures Invariant(s)
  {
  }

  lemma StepKeepsInvariant(s: Cluster, step: Step)
    requires Invariant(s) && Enabled(s, step)
    ensures Invariant(Apply(s, step))
  {
    var t := Apply(s, step);
    forall k, c | 0 <= k < |t.nodes|
      ensures Accounted(t, k, c)
    {
      StepAccounts(s, step, k, c);
    }
  }

  /** A peer still owing a notice of c after a step keeps c accounted for. */
  lemma StepAccounts(s: Cluster, step: Step, k: nat, c: ChannelId)
    requires Invariant(s) && Enabled(s, step) && k < |s.nodes|
    ensures |Apply(s, step).nodes| == |s.nodes| && Accounted(Apply(s, step), k, c)
  {
    var t := Apply(s, step);
    assert Accounted(s, k, c);
    match step
    case SetWrite(i, setting) => WriteAccounts(s, step, k, c);
    case DeleteWrite(i, channel) => WriteAccounts(s, step, k, c);
    case Notify(i, channel) => BroadcastAccounts(s, step, k, c);
    case NotifyFails(i, channel) => BroadcastAccounts(s, step, k, c);
    case _ => LocalAccounts(s, step, k, c);
  }

  lemma WriteAccounts(s: Cluster, step: Step, k: nat, c: ChannelId)
    requires Enabled(s, step) && (step.SetWrite? || step.DeleteWrite?)
    requires k < |s.nodes| && Accounted(s, k, c)
    ensures Accounted(Apply(s, step), k, c)
  {
    var t := Apply(s, step);
    var i := step.i;
    var written := if step.SetWrite? then step.setting.channelId else step.channel;
    if c == written {
      if k != i { assert OwesNotice(t.nodes[i], c); } else { assert Agrees(t, k, c); }
    } else if PeerOwesNotice(s, k, c) {
      var j :| 0 <= j < |s.nodes| && j != k && OwesNotice(s.nodes[j], c);
      assert OwesNotice(t.nodes[j], c);
    } else if Agrees(s, k, c) {
      assert Agrees(t, k, c);
    }
  }

  lemma BroadcastAccounts(s: Cluster, step: Step, k: nat, c: ChannelId)
    requires Enabled(s, step) && (step.Notify? || step.NotifyFails?)
    requires k < |s.nodes| && Accounted(s, k, c)
    ensures Accounted(Apply(s, step), k, c)
  {
    var t := Apply(s, step);
    if PeerOwesNotice(s, k, c) {
      var j :| 0 <= j < |s.nodes| && j != k && OwesNotice(s.nodes[j], c);
      if j == step.i && c == step.channel {
        assert c in t.nodes[k].inbox || (k, c) in t.unsynced;
      } else {
        BroadcastKeepsNotices(s, step, j, c);
      }
    } else {
      BroadcastAtNode(s, step, k, c);
    }
  }

  lemma BroadcastKeepsNotices(s: Cluster, step: Step, j: nat, c: ChannelId)
    requires Enabled(s, step) && (step.Notify? || step.NotifyFails?)
    requires j < |s.nodes| && OwesNotice(s.nodes[j], c) && !(j == step.i && c == step.channel)
    ensures OwesNotice(Apply(s, step).nodes[j], c)
  {
  }

  lemma BroadcastAtNode(s: Cluster, step: Step, k: nat, c: ChannelId)
    requires Enabled(s, step) && (step.Notify? || step.NotifyFails?)
    requires k < |s.nodes|
    requires Agrees(s, k, c) || c in s.nodes[k].inbox || (k, c) in s.unsynced
    ensures var t := Apply(s, step);
            Agrees(t, k, c) || c in t.nodes[k].inbox || (k, c) in t.unsynced
  {
    var n, m := s.nodes[k], Apply(s, step).nodes[k];
    BroadcastOnlyMail(s, step, k);
    FinishIgnoresMail(n, m);
  }

  lemma BroadcastOnlyMail(s: Cluster, step: Step, k: nat)
    requires Enabled(s, step) && (step.Notify? || step.NotifyFails?)
    requires k < |s.nodes|
    ensures var n, m := s.nodes[k], Apply(s, step).nodes[k];
            && m.modes == n.modes && m.cache == n.cache && m.phase == n.phase && n.inbox <= m.inbox
    ensures Apply(s, step).table == s.table && s.unsynced <= Apply(s, step).unsynced
  {
    if step.Notify? { assert Apply(s, step).nodes == Broadcast(s.nodes, step.i, step.channel); }
  }

  /** The cache an operation will leave does not depend on the node's mail. */
  lemma FinishIgnoresMail(n: Node, m: Node)
    requires m.modes == n.modes && m.cache == n.cache && m.phase == n.phase
    ensures Finish(m).cache == Finish(n).cache
  {
  }

  lemma LocalAccounts(s: Cluster, step: Step, k: nat, c: ChannelId)
    requires Enabled(s, step) && (step.LoadRead? || step.RefreshRead? || step.RefreshFails? || step.Complete?)
    requires k < |s.nodes| && Accounted(s, k, c)
    ensures Accounted(Apply(s, step), k, c)
  {
    var t := Apply(s, step);
    if PeerOwesNotice(s, k, c) {
      var j :| 0 <= j < |s.nodes| && j != k && OwesNotice(s.nodes[j], c);
      LocalKeepsNotices(s, step, j, c);
      assert OwesNotice(t.nodes[j], c);
    } else if k == step.i {
      LocalAtNode(s, step, c);
    }
  }

  lemma LocalKeepsNotices(s: Cluster, step: Step, j: nat, c: ChannelId)
    requires Enabled(s, step) && (step.LoadRead? || step.RefreshRead? || step.RefreshFails? || step.Complete?)
    requires j < |s.nodes| && OwesNotice(s.nodes[j], c)
    ensures OwesNotice(Apply(s, step).nodes[j], c)
  {
  }

  /** The node that takes a local step keeps c accounted for by itself. */
  lemma LocalAtNode(s: Cluster, step: Step, c: ChannelId)
    requires Enabled(s, step) && (step.LoadRead? || step.RefreshRead? || step.RefreshFails? || step.Complete?)
    requires Agrees(s, step.i, c) || c in s.nodes[step.i].inbox || (step.i, c) in s.unsynced
    ensures var t := Apply(s, step);
            Agrees(t, step.i, c) || c in t.nodes[step.i].inbox || (step.i, c) in t.unsynced
  {
    match step
    case LoadRead(i) => LoadAtNode(s, i, c);
    case RefreshRead(i, channel) => RefreshAtNode(s, i, channel, c);
    case RefreshFails(i, _) => FinishIgnoresMail(s.nodes[i], Apply(s, step).nodes[i]);
    case Complete(i) => assert Finish(Apply(s, step).nodes[i]) == Apply(s, step).nodes[i];
  }

  lemma LoadAtNode(s: Cluster, i: nat, c: ChannelId)
    requires Enabled(s, LoadRead(i))
    ensures Agrees(Apply(s, LoadRead(i)), i, c)
  {
    assert Finish(Apply(s, LoadRead(i)).nodes[i]).cache == ServableRows(s.nodes[i].modes, s.table);
  }

  lemma RefreshAtNode(s: Cluster, i: nat, channel: ChannelId, c: ChannelId)
    requires Enabled(s, RefreshRead(i, channel))
    requires Agrees(s, i, c) || c in s.nodes[i].inbox || (i, c) in s.unsynced
    ensures var t := Apply(s, RefreshRead(i, channel));
            Agrees(t, i, c) || c in t.nodes[i].inbox || (i, c) in t.unsynced
  {
    var m := Apply(s, RefreshRead(i, channel)).nodes[i];
    assert c != channel ==> Lookup(Finish(m).cache, c) == Lookup(s.nodes[i].cache, c);
  }

  lemma RunKeepsInvariant(s: Cluster, steps: seq<Step>, t: Cluster)
    requires Invariant(s) && Reaches(s, steps, t)
    ensures Invariant(t)
    decreases |steps|
  {
    if steps != [] {
      StepKeepsInvariant(s, steps[0]);
      RunKeepsInvariant(Apply(s, steps[0]), steps[1..], t);
    }
  }

  // ------------------------------------------- no other mode is ever served

  /** The setting may be cached under c. */
  predicate MayServe(n: Node, c: ChannelId, setting: Setting) {
    setting.mode in n.modes && setting.channelId == c
  }

  /** What a node caches, and what it will cache of what it has read or written, may be served. */
  predicate NodeServes(n: Node) {
    && (forall c :: c in n.cache ==> MayServe(n, c, n.cache[c]))
    && (n.phase.Stored? ==> n.phase.setting.mode in n.modes)
    && (n.phase.Listed? ==> forall c :: c in n.phase.rows ==> n.phase.rows[c].channelId == c)
    && (n.phase.Fetched? && n.phase.row.Some? ==> n.phase.row.value.channelId == n.phase.channel)
  }

  ghost predicate AllServe(s: Cluster) {
    && (forall c :: c in s.table ==> s.table[c].channelId == c)
    && (forall i :: 0 <= i < |s.nodes| ==> NodeServes(s.nodes[i]))
  }

  lemma FinishServes(n: Node)
    requires NodeServes(n)
    ensures NodeServes(Finish(n))
  {
  }

  lemma StepServes(s: Cluster, step: Step)
    requires AllServe(s) && Enabled(s, step)
    ensures AllServe(Apply(s, step))
  {
    var t := Apply(s, step);
    FinishServes(s.nodes[step.i]);
    forall i | 0 <= i < |t.nodes| ensures NodeServes(t.nodes[i]) {
      assert NodeServes(s.nodes[i]);
    }
  }

  lemma {:induction false} RunServes(s: Cluster, steps: seq<Step>, t: Cluster)
    requires AllServe(s) && Reaches(s, steps, t)
    ensures AllServe(t)
    decreases |steps|
  {
    if steps != [] {
      StepServes(s, steps[0]);
      RunServes(Apply(s, steps[0]), steps[1..], t);
    }
  }

  /** In every interleaving, whatever other versions have stored, a node caches only settings of
      modes that its own version can store, each under its channel. */
  lemma OnlyKnownModesAreServed(s: Cluster, steps: seq<Step>, t: Cluster, i: nat, c: ChannelId)
    requires Started(s) && Reaches(s, steps, t)
    requires i < |t.nodes| && c in t.nodes[i].cache
    ensures t.nodes[i].cache[c].mode in t.nodes[i].modes && t.nodes[i].cache[c].channelId == c
  {
    RunServes(s, steps, t);
    assert NodeServes(t.nodes[i]) && MayServe(t.nodes[i], c, t.nodes[i].cache[c]);
  }

  predicate Quiet(n: Node) {
    n.phase.Free? && n.toNotify == multiset{} && n.inbox == multiset{}
  }

  predicate Quiescent(s: Cluster) {
    forall i :: 0 <= i < |s.nodes| ==> Quiet(s.nodes[i])
  }

  /** Node i serves for c exactly the row of the table, if its version can store the mode of it. */
  predicate ServesTable(s: Cluster, i: nat, c: ChannelId)
    requires i < |s.nodes|
  {
    var n := s.nodes[i];
    && (c in n.cache <==> c in s.table && s.table[c].mode in n.modes)
    && (c in n.cache ==> n.cache[c] == s.table[c])
  }

  /** In every interleaving, an entry of an idle node that differs from the table is
      explained by a message on its way, a peer that wrote and has not notified yet, or
      an invalidation that was lost. */
  lemma StaleEntryIsExplained(s: Cluster, steps: seq<Step>, t: Cluster, i: nat, c: ChannelId)
    requires Started(s) && Reaches(s, steps, t)
    requires i < |t.nodes| && t.nodes[i].phase.Free? && !ServesTable(t, i, c)
    ensures c in t.nodes[i].inbox || PeerOwesNotice(t, i, c) || (i, c) in t.unsynced
  {
    StartedInvariant(s);
    RunKeepsInvariant(s, steps, t);
    assert Accounted(t, i, c);
  }

  /** At quiescence every cache equals the servable rows, except where an invalidation
      was lost and the row not read since. */
  lemma QuiescentServesTable(t: Cluster, i: nat, c: ChannelId)
    requires Invariant(t) && Quiescent(t)
    requires i < |t.nodes| && (i, c) !in t.unsynced
    ensures ServesTable(t, i, c)
  {
    assert Quiet(t.nodes[i]) && Accounted(t, i, c);
    assert forall j :: 0 <= j < |t.nodes| ==> Quiet(t.nodes[j]);
  }

  /** Without failures nothing is ever lost. */
  lemma LosslessRunLosesNothing(s: Cluster, steps: seq<Step>, t: Cluster)
    requires Reaches(s, steps, t)
    requires forall step :: step in steps ==> !step.RefreshFails? && !step.NotifyFails?
    ensures t.unsynced <= s.unsynced
    decreases |steps|
  {
    if steps != [] {
      LosslessRunLosesNothing(Apply(s, steps[0]), steps[1..], t);
    }
  }

  /** Nothing that node i should know of is lost by these steps: it re-reads every row it is
      told about, and every broadcast of its peers goes out. */
  predicate LosesNothingOf(step: Step, i: nat) {
    !(step.RefreshFails? && step.i == i) && !(step.NotifyFails? && step.i != i)
  }

  lemma {:induction false} NothingOfNodeIsLost(s: Cluster, steps: seq<Step>, t: Cluster, i: nat)
    requires Reaches(s, steps, t) && forall step :: step in steps ==> LosesNothingOf(step, i)
    requires forall c :: (i, c) !in s.unsynced
    ensures forall c :: (i, c) !in t.unsynced
    decreases |steps|
  {
    if steps != [] {
      StepLosesNothingOf(s, steps[0], i);
      NothingOfNodeIsLost(Apply(s, steps[0]), steps[1..], t, i);
    }
  }

  lemma StepLosesNothingOf(s: Cluster, step: Step, i: nat)
    requires Enabled(s, step) && LosesNothingOf(step, i) && forall c :: (i, c) !in s.unsynced
    ensures forall c :: (i, c) !in Apply(s, step).unsynced
  {
  }

  /** Once a node has loaded its cache, and nothing of it is lost afterwards, an entry it
      serves while idle that differs from the table has a message on its way, or a peer that
      has written and not notified yet. What happened before the load does not matter. */
  lemma LoadedNodeIsExplained(start: Cluster, before: seq<Step>, s: Cluster, steps: seq<Step>, t: Cluster, i: nat, c: ChannelId)
    requires Started(start) && Reaches(start, before, s)
    requires Enabled(s, LoadRead(i)) && Reaches(Apply(s, LoadRead(i)), steps, t)
    requires forall step :: step in steps ==> LosesNothingOf(step, i)
    requires i < |t.nodes| && t.nodes[i].phase.Free? && !ServesTable(t, i, c)
    ensures c in t.nodes[i].inbox || PeerOwesNotice(t, i, c)
  {
    var u := Apply(s, LoadRead(i));
    StartedInvariant(start);
    RunKeepsInvariant(start, before, s);
    StepKeepsInvariant(s, LoadRead(i));
    RunKeepsInvariant(u, steps, t);
    NothingOfNodeIsLost(u, steps, t, i);
    assert Accounted(t, i, c);
  }

  /** At quiescence its cache is then exactly the servable rows of the table. */
  lemma LoadedNodeServesTheTable(start: Cluster, before: seq<Step>, s: Cluster, steps: seq<Step>, t: Cluster, i: nat)
    requires Started(start) && Reaches(start, before, s)
    requires Enabled(s, LoadRead(i)) && Reaches(Apply(s, LoadRead(i)), steps, t)
    requires forall step :: step in steps ==> LosesNothingOf(step, i)
    requires i < |t.nodes| && Quiescent(t)
    ensures t.nodes[i].cache == ServableRows(t.nodes[i].modes, t.table)
    ensures forall c :: ServesTable(t, i, c)
  {
    var u := Apply(s, LoadRead(i));
    StartedInvariant(start);
    RunKeepsInvariant(start, before, s);
    StepKeepsInvariant(s, LoadRead(i));
    RunKeepsInvariant(u, steps, t);
    NothingOfNodeIsLost(u, steps, t, i);
    QuiescentCacheIsTheTable(t, i);
  }

  lemma QuiescentCacheIsTheTable(t: Cluster, i: nat)
    requires Invariant(t) && Quiescent(t) && i < |t.nodes| && forall c :: (i, c) !in t.unsynced
    ensures t.nodes[i].cache == ServableRows(t.nodes[i].modes, t.table)
    ensures forall c :: ServesTable(t, i, c)
  {
    forall c ensures ServesTable(t, i, c) && Lookup(t.nodes[i].cache, c) == Lookup(ServableRows(t.nodes[i].modes, t.table), c) {
      QuiescentServesTable(t, i, c);
    }
    SameLookups(t.nodes[i].cache, ServableRows(t.nodes[i].modes, t.table));
  }

  lemma SameLookups(a: map<ChannelId, Setting>, b: map<ChannelId, Setting>)
    requires forall c :: Lookup(a, c) == Lookup(b, c)
    ensures a == b
  {
    assert forall c :: c in a <==> Lookup(a, c).Some?;
    assert forall c :: c in b <==> Lookup(b, c).Some?;
    assert forall c :: c in a ==> a[c] == Lookup(a, c).value == Lookup(b, c).value == b[c];
  }

  // ------------------------------------------- every cluster left alone converges

  /** A step of the cluster's own machinery, as opposed to a request. */
  predicate Internal(step: Step) {
    step.Complete? || step.Notify? || step.NotifyFails? || step.RefreshRead? || step.RefreshFails?
  }

  function PhaseWork(phase: Phase, peers: nat): nat {
    match phase
    case Free => 0
    case Stored(_) => 2 * peers + 2
    case Removed(_) => 2 * peers + 2
    case Listed(_) => 1
    case Fetched(_, _) => 1
  }

  /** The internal steps a node's current operation and mail can still cause. */
  function NodeWork(n: Node, peers: nat): nat {
    PhaseWork(n.phase, peers) + (2 * peers + 1) * |n.toNotify| + 2 * |n.inbox|
  }

  function NodesWork(nodes: seq<Node>, peers: nat): nat {
    if nodes == [] then 0
    else NodesWork(nodes[..|nodes| - 1], peers) + NodeWork(nodes[|nodes| - 1], peers)
  }

  function Work(s: Cluster): nat {
    NodesWork(s.nodes, if s.nodes == [] then 0 else |s.nodes| - 1)
  }

  lemma Distribute(m: int, y: int)
    ensures (m + 1) * y == m * y + y
  {
  }

  /** Changing node i by x, and every other node by y, changes the sum accordingly. */
  lemma {:induction false} WorkShifts(a: seq<Node>, b: seq<Node>, peers: nat, i: nat, x: int, y: int)
    requires |a| == |b|
    requires forall j :: 0 <= j < |a| ==> NodeWork(b[j], peers) == NodeWork(a[j], peers) + if j == i then x else y
    ensures NodesWork(b, peers) == NodesWork(a, peers) + if i < |a| then x + (|a| - 1) * y else |a| * y
  {
    if a != [] {
      var m := |a| - 1;
      WorkShifts(a[..m], b[..m], peers, i, x, y);
      Distribute(m, y);
      Distribute(m - 1, y);
      assert NodeWork(b[m], peers) == NodeWork(a[m], peers) + if m == i then x else y;
    }
  }

  lemma NoticeWork(n: Node, peers: nat, c: ChannelId)
    requires c in n.toNotify
    ensures NodeWork(n.(toNotify := n.toNotify - multiset{c}), peers) == NodeWork(n, peers) - (2 * peers + 1)
  {
    var m := |n.toNotify|;
    assert |n.toNotify - multiset{c}| == m - 1;
    assert (2 * peers + 1) * (m - 1) == (2 * peers + 1) * m - (2 * peers + 1);
  }

  lemma FinishWork(n: Node, peers: nat)
    requires !n.phase.Free?
    ensures NodeWork(Finish(n), peers) < NodeWork(n, peers)
  {
    if n.phase.Stored? || n.phase.Removed? {
      var m := |n.toNotify|;
      assert |Finish(n).toNotify| == m + 1;
      assert (2 * peers + 1) * (m + 1) == (2 * peers + 1) * m + (2 * peers + 1);
    }
  }

  lemma RefreshWork(n: Node, peers: nat, c: ChannelId, row: Option<Setting>)
    requires n.phase.Free? && c in n.inbox
    ensures NodeWork(n.(phase := Fetched(c, row), inbox := n.inbox - multiset{c}), peers) < NodeWork(n, peers)
    ensures NodeWork(n.(inbox := n.inbox - multiset{c}), peers) < NodeWork(n, peers)
  {
    assert |n.inbox - multiset{c}| == |n.inbox| - 1;
  }

  lemma InternalStepWorks(s: Cluster, step: Step)
    requires Enabled(s, step) && Internal(step)
    ensures Work(Apply(s, step)) < Work(s)
  {
    var t := Apply(s, step);
    var i, peers := step.i, |s.nodes| - 1;
    var n := s.nodes[i];
    if step.Notify? {
      NotifyWorks(s, i, step.channel);
    } else {
      LocalStepWorks(s, step);
      WorkShifts(s.nodes, t.nodes, peers, i, NodeWork(t.nodes[i], peers) - NodeWork(n, peers), 0);
    }
  }

  /** A broadcast costs the sender more than its peers get. */
  lemma NotifyWorks(s: Cluster, i: nat, c: ChannelId)
    requires Enabled(s, Notify(i, c))
    ensures Work(Apply(s, Notify(i, c))) < Work(s)
  {
    var t, peers := Apply(s, Notify(i, c)), |s.nodes| - 1;
    NoticeWork(s.nodes[i], peers, c);
    WorkShifts(s.nodes, t.nodes, peers, i, -(2 * peers + 1), 2);
  }

  lemma LocalStepWorks(s: Cluster, step: Step)
    requires Enabled(s, step) && Internal(step) && !step.Notify?
    ensures var t := Apply(s, step);
            && |t.nodes| == |s.nodes|
            && NodeWork(t.nodes[step.i], |s.nodes| - 1) < NodeWork(s.nodes[step.i], |s.nodes| - 1)
            && forall j :: 0 <= j < |s.nodes| && j != step.i ==> t.nodes[j] == s.nodes[j]
  {
    var peers := |s.nodes| - 1;
    var n := s.nodes[step.i];
    match step {
      case Complete(_) => FinishWork(n, peers);
      case NotifyFails(_, c) => NoticeWork(n, peers, c);
      case RefreshRead(_, c) => RefreshWork(n, peers, c, Lookup(s.table, c));
      case RefreshFails(_, c) => RefreshWork(n, peers, c, None);
    }
  }

  /** With no further requests a cluster takes at most Work steps, whatever the order. */
  lemma InternalRunsAreBounded(s: Cluster, steps: seq<Step>, t: Cluster)
    requires Reaches(s, steps, t)
    requires forall step :: step in steps ==> Internal(step)
    ensures |steps| + Work(t) <= Work(s)
    decreases |steps|
  {
    if steps != [] {
      InternalStepWorks(s, steps[0]);
      InternalRunsAreBounded(Apply(s, steps[0]), steps[1..], t);
    }
  }

  /** A cluster that is not quiescent can take an internal step that loses nothing. */
  lemma NotStuck(s: Cluster) returns (step: Step)
    requires !Quiescent(s)
    ensures Enabled(s, step) && Internal(step) && !step.NotifyFails? && !step.RefreshFails?
  {
    var i :| 0 <= i < |s.nodes| && !Quiet(s.nodes[i]);
    var n := s.nodes[i];
    if !n.phase.Free? {
      step := Complete(i);
    } else if n.toNotify != multiset{} {
      var c :| c in n.toNotify;
      step := Notify(i, c);
    } else {
      var c :| c in n.inbox;
      step := RefreshRead(i, c);
    }
  }

  /** From any reachable state, if requests stop and messages get through, the cluster
      reaches a state where every node serves the table that was stored at that moment, as far
      as nothing was lost before, and a node of which nothing was lost serves all of it. */
  lemma Converges(s: Cluster) returns (steps: seq<Step>, t: Cluster)
    requires Invariant(s)
    ensures Reaches(s, steps, t) && |steps| <= Work(s)
    ensures t.table == s.table && |t.nodes| == |s.nodes| && Quiescent(t)
    ensures forall i, c :: 0 <= i < |t.nodes| && (i, c) !in s.unsynced ==> ServesTable(t, i, c)
    ensures forall i :: 0 <= i < |t.nodes| && (forall c :: (i, c) !in s.unsynced) ==>
              t.nodes[i].cache == map c | c in t.table && t.table[c].mode in t.nodes[i].modes :: t.table[c]
    decreases Work(s)
  {
    if Quiescent(s) {
      steps, t := [], s;
      forall i, c | 0 <= i < |t.nodes| && (i, c) !in s.unsynced ensures ServesTable(t, i, c) {
        QuiescentServesTable(t, i, c);
      }
      forall i | 0 <= i < |t.nodes| && (forall c :: (i, c) !in s.unsynced)
        ensures t.nodes[i].cache == map c | c in t.table && t.table[c].mode in t.nodes[i].modes :: t.table[c]
      {
        QuiescentCacheIsTheTable(t, i);
      }
    } else {
      var step := NotStuck(s);
      InternalStepWorks(s, step);
      StepKeepsInvariant(s, step);
      var u := Apply(s, step);
      assert u.unsynced <= s.unsynced;
      var rest;
      rest, t := Converges(u);
      steps := [step] + rest;
      assert steps[1..] == rest;
    }
  }

  // ---------------------------------------------------------------- the service

  /** The Agents_ChannelAutoReply table; its primary key is the channel ID. */
  class Store {
    var rows: map<ChannelId, Setting>
  }

  datatype SetError =
    | MissingChannel | MissingBot | BadMode | InstructionsTooLong | InstructionsHaveNul
    | UnknownBot | ChannelLookupFailed | DirectChannel | BotRestricted | StoreFailed

  /** What the bot registry and the server say about the setting's bot and channel. */
  datatype Facts = Facts(botFound: bool, channelFound: bool, direct: bool, restricted: bool)

  const MAX_INSTRUCTIONS_RUNES := 8000

  /** What is wrong with a setting when a validation fails; a store failure is not one. */
  predicate Violates(e: SetError, setting: Setting, facts: Facts) {
    match e
    case MissingChannel => setting.channelId == ""
    case MissingBot => setting.botId == ""
    case BadMode => setting.mode !in CURRENT_MODES
    case InstructionsTooLong => |setting.instructions| > MAX_INSTRUCTIONS_RUNES
    case InstructionsHaveNul => '\0' in setting.instructions
    case UnknownBot => !facts.botFound
    case ChannelLookupFailed => !facts.channelFound
    case DirectChannel => facts.direct
    case BotRestricted => facts.restricted
    case StoreFailed => false
  }

  /** The order in which the validations are made. */
  function Rank(e: SetError): nat {
    match e
    case MissingChannel => 0
    case MissingBot => 1
    case BadMode => 2
    case InstructionsTooLong => 3
    case InstructionsHaveNul => 4
    case UnknownBot => 5
    case ChannelLookupFailed => 6
    case DirectChannel => 7
    case BotRestricted => 8
    case StoreFailed => 9
  }

  /** The first validation a setting fails; none exactly when it passes them all. */
  function Rejection(setting: Setting, facts: Facts): (e: Option<SetError>)
    ensures e.None? ==> forall v: SetError :: !Violates(v, setting, facts)
    ensures e.Some? ==> Violates(e.value, setting, facts) && forall v :: Rank(v) < Rank(e.value) ==> !Violates(v, setting, facts)
  {
    if setting.channelId == "" then Some(MissingChannel)
    else if setting.botId == "" then Some(MissingBot)
    else if setting.mode !in CURRENT_MODES then Some(BadMode)
    else if |setting.instructions| > MAX_INSTRUCTIONS_RUNES then Some(InstructionsTooLong)
    else if '\0' in setting.instructions then Some(InstructionsHaveNul)
    else if !facts.botFound then Some(UnknownBot)
    else if !facts.channelFound then Some(ChannelLookupFailed)
    else if facts.direct then Some(DirectChannel)
    else if facts.restricted then Some(BotRestricted)
    else None
  }

  class Service {
    const store: Store
    const modes: set<Mode>
    var cache: map<ChannelId, Setting>
    var phase: Phase
    var toNotify: multiset<ChannelId>

    /** A node running this version of the plugin. */
    constructor (store: Store)
      ensures this.store == store
      ensures View(multiset{}) == Node(CURRENT_MODES, map[], Free, multiset{}, multiset{})
    {
      this.store, modes := store, CURRENT_MODES;
      cache, phase, toNotify := map[], Free, multiset{};
    }

    /** This service as a node of the cluster, with its undelivered mail. */
    function View(inbox: multiset<ChannelId>): Node
      reads this
    {
      Node(modes, cache, phase, toNotify, inbox)
    }

    method GetCached(c: ChannelId) returns (setting: Option<Setting>)
      ensures setting == Lookup(cache, c)
    {
      setting := if c in cache then Some(cache[c]) else None;
    }

    /** Locks writeMu and upserts the row; the lock is kept until Complete. */
    method WriteRow(setting: Setting)
      requires phase.Free?
      modifies this`phase, store
      ensures store.rows == old(store.rows)[setting.channelId := setting] && phase == Stored(setting)
    {
      store.rows := store.rows[setting.channelId := setting];
      phase := Stored(setting);
    }

    method DeleteRow(c: ChannelId)
      requires phase.Free?
      modifies this`phase, store
      ensures store.rows == old(store.rows) - {c} && phase == Removed(c)
    {
      store.rows := store.rows - {c};
      phase := Removed(c);
    }

    method ReadRow(c: ChannelId)
      requires phase.Free?
      modifies this`phase
      ensures phase == Fetched(c, Lookup(store.rows, c))
    {
      phase := Fetched(c, if c in store.rows then Some(store.rows[c]) else None);
    }

    method ReadAll()
      requires phase.Free?
      modifies this`phase
      ensures phase == Listed(store.rows)
    {
      phase := Listed(store.rows);
    }

    /** Updates the cache map and unlocks writeMu. */
    method Complete()
      modifies this
      ensures forall inbox :: View(inbox) == Finish(old(View(inbox)))
    {
      match phase
      case Free =>
      case Stored(setting) =>
        cache := cache[setting.channelId := setting];
        toNotify, phase := toNotify + multiset{setting.channelId}, Free;
      case Removed(c) =>
        cache := cache - {c};
        toNotify, phase := toNotify + multiset{c}, Free;
      case Fetched(c, row) =>
        if row.Some? && row.value.mode in modes {
          cache := cache[c := row.value];
        } else {
          cache := cache - {c};
        }
        phase := Free;
      case Listed(rows) =>
        var reloaded: map<ChannelId, Setting> := map[];
        var left := rows.Keys;
        while left != {}
          invariant left <= rows.Keys
          invariant reloaded == ServableRows(modes, rows - left)
          decreases left
        {
          var c :| c in left;
          if rows[c].mode in modes {
            reloaded := reloaded[c := rows[c]];
          }
          left := left - {c};
        }
        assert rows - left == rows;
        cache, phase := reloaded, Free;
    }

    /** A whole Set that no other node interrupts. The broadcast still has to be sent. */
    method Set(setting: Setting, facts: Facts, now: int, storeOk: bool) returns (r: Result<Setting, SetError>)
      requires phase.Free?
      modifies this, store
      ensures phase.Free?
      ensures r.Err? <==> Rejection(setting, facts).Some? || !storeOk
      ensures r.Err? ==> r.error == if Rejection(setting, facts).Some? then Rejection(setting, facts).value else StoreFailed
      ensures r.Err? ==> store.rows == old(store.rows) && cache == old(cache) && toNotify == old(toNotify)
      ensures r.Ok? ==>
        && r.value == setting.(updateAt := now)
        && store.rows == old(store.rows)[setting.channelId := r.value]
        && cache == old(cache)[setting.channelId := r.value]
        && toNotify == old(toNotify) + multiset{setting.channelId}
    {
      var rejection := Rejection(setting, facts);
      if rejection.Some? { return Err(rejection.value); }
      if !storeOk { return Err(StoreFailed); }
      var stored := setting.(updateAt := now);
      WriteRow(stored);
      Complete();
      assert View(multiset{}).cache == old(cache)[setting.channelId := stored];
      r := Ok(stored);
    }

    method Delete(c: ChannelId, storeOk: bool) returns (r: Result<(), SetError>)
      requires phase.Free?
      modifies this, store
      ensures phase.Free?
      ensures r.Err? <==> c == "" || !storeOk
      ensures r.Err? ==> r.error == if c == "" then MissingChannel else StoreFailed
      ensures r.Err? ==> store.rows == old(store.rows) && cache == old(cache) && toNotify == old(toNotify)
      ensures r.Ok? ==>
        && store.rows == old(store.rows) - {c} && cache == old(cache) - {c}
        && toNotify == old(toNotify) + multiset{c}
    {
      if c == "" { return Err(MissingChannel); }
      if !storeOk { return Err(StoreFailed); }
      DeleteRow(c);
      Complete();
      assert View(multiset{}).cache == old(cache) - {c};
      r := Ok(());
    }

    /** Re-reads one row; on a read error the cache keeps what it had. */
    method RefreshChannel(c: ChannelId, readOk: bool) returns (ok: bool)
      requires phase.Free?
      modifies this
      ensures phase.Free? && ok == readOk && toNotify == old(toNotify)
      ensures !ok ==> cache == old(cache)
      ensures ok ==> (c in cache <==> c in store.rows && store.rows[c].mode in modes)
      ensures ok && c in cache ==> cache[c] == store.rows[c]
      ensures forall d :: d != c ==> (d in cache <==> d in old(cache)) && (d in cache ==> cache[d] == old(cache)[d])
    {
      if !readOk { return false; }
      ReadRow(c);
      label read:
      Complete();
      assert View(multiset{}) == Finish(old@read(View(multiset{})));
      ok := true;
    }

    method LoadCache(readOk: bool) returns (ok: bool)
      requires phase.Free?
      modifies this
      ensures phase.Free? && ok == readOk && toNotify == old(toNotify)
      ensures !ok ==> cache == old(cache)
      ensures ok ==> forall c :: c in cache <==> c in store.rows && store.rows[c].mode in modes
      ensures ok ==> forall c :: c in cache ==> cache[c] == store.rows[c]
    {
      if !readOk { return false; }
      ReadAll();
      label read:
      Complete();
      assert View(multiset{}) == Finish(old@read(View(multiset{})));
      ok := true;
    }
  }
}
