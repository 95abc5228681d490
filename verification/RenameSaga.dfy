/**
 Saving an agent (api/api_agents.go): the bot account, the stored agent and the access policy
 are changed one after the other, and undone as far as possible when a later call fails.
 */
module RenameSaga {

  datatype Agent = Agent(name: string, attributeBased: bool, other: string)

  /** What the calls change: the account's username, the stored agent, and whether an access
      policy exists for the agent. */
  datatype World = World(account: string, stored: Agent, policy: bool)

  /** A call succeeds, fails without effect, or takes effect and still reports an error. */
  datatype Effect = Done | Failed | Unclear

  /** What happens outside: the checks of the request, the settings bound to the agent, the
      username lookup, and the calls that change something. */
  datatype Env = Env(
    checksPass: bool, bindOk: bool, lookupFails: bool, taken: bool,
    rename: Effect, update: Effect, deletePolicy: Effect, rollback: Effect, revert: Effect)

  predicate Renames(w: World, next: Agent) {
    next.name != w.stored.name
  }

  predicate LeavesAttributeBased(w: World, next: Agent) {
    w.stored.attributeBased && !next.attributeBased
  }

  /** The request gets as far as the call that renames the account. */
  predicate CallsRename(w: World, next: Agent, env: Env) {
    Renames(w, next) && env.checksPass && env.bindOk && !env.lookupFails && w.account != next.name && !env.taken
  }

  /** The rename, or the update after it, takes effect and reports an error, and the revert of
      the latter succeeds: the code then believes that nothing has changed. */
  predicate Misled(w: World, next: Agent, env: Env) {
    CallsRename(w, next, env) && (env.rename.Unclear? || (env.rename.Done? && env.update.Unclear? && env.revert.Done?))
  }

  /** The account has the new name, and the update is called. */
  predicate StoresRenamed(w: World, next: Agent, env: Env) {
    && Renames(w, next) && env.checksPass && env.bindOk && !env.lookupFails
    && (w.account == next.name || (!env.taken && env.rename.Done?))
  }

  /** No call takes effect and still reports an error. */
  predicate ErrorsAreClear(env: Env) {
    !env.rename.Unclear? && !env.update.Unclear? && !env.deletePolicy.Unclear? && !env.rollback.Unclear? && !env.revert.Unclear?
  }

  /** Renames the account unless it already has the name. */
  method RenameAgentBot(w: World, username: string, env: Env) returns (w': World, renamed: bool, ok: bool)
    ensures w' == w.(account := w'.account)
    ensures ok ==> w'.account == username && (renamed <==> w.account != username)
    ensures !ok ==> !renamed
    ensures !ok && !env.rename.Unclear? ==> w' == w
    ensures ok <==> !env.lookupFails && (w.account == username || (!env.taken && env.rename.Done?))
    ensures w'.account == username || w'.account == w.account
    ensures w'.account != w.account ==> !env.lookupFails && !env.taken && !env.rename.Failed?
    ensures !env.lookupFails && !env.taken && w.account != username && env.rename.Unclear? ==> w'.account == username
  {
    w', renamed, ok := w, false, false;
    if env.lookupFails { return; }
    if w.account == username { return w, false, true; }
    if env.taken { return; }
    if !env.rename.Failed? { w' := w.(account := username); }
    if !env.rename.Done? { return; }
    renamed, ok := true, true;
  }

  /** Puts the previous username back. */
  method RevertRename(w: World, renamed: bool, username: string, env: Env) returns (w': World, reverted: bool)
    ensures w' == w.(account := if renamed && !env.revert.Failed? then username else w.account)
    ensures reverted <==> renamed && env.revert.Done?
  {
    w', reverted := w, false;
    if !renamed { return; }
    if !env.revert.Failed? { w' := w.(account := username); }
    reverted := env.revert.Done?;
  }

  /** The calls after the rename. */
  method StoreAgent(w: World, prev: Agent, next: Agent, renamed: bool, env: Env) returns (w': World, ok: bool, reverted: bool)
    requires w.stored == prev
    ensures ok <==> env.update.Done? && (prev.attributeBased && !next.attributeBased ==> env.deletePolicy.Done?)
    ensures ok ==> w'.stored == next && w'.account == w.account && (prev.attributeBased && !next.attributeBased ==> !w'.policy)
    ensures !ok && !reverted ==> w'.account == w.account || (renamed && env.revert.Unclear?)
    ensures reverted ==> w'.account == prev.name && renamed && !ok && env.revert.Done?
    ensures reverted && !env.update.Unclear? ==> w'.stored == prev
    ensures reverted && env.update.Unclear? ==> w'.stored == next
    ensures !ok && env.update.Unclear? && renamed && env.revert.Done? ==> reverted
    ensures w'.stored == prev || w'.stored == next
    ensures !ok && !renamed ==> w'.account == w.account
    ensures !ok && env.rollback.Done? && !env.update.Unclear? ==> w'.stored == prev
    ensures !ok && !(prev.attributeBased && !next.attributeBased) ==> w'.policy == w.policy
    ensures !ok && env.deletePolicy.Failed? ==> w'.policy == w.policy
  {
    w', ok, reverted := w, false, false;
    if !env.update.Failed? { w' := w'.(stored := next); }
    if !env.update.Done? {
      w', reverted := RevertRename(w', renamed, prev.name, env);
      return;
    }
    if prev.attributeBased && !next.attributeBased {
      if !env.deletePolicy.Failed? { w' := w'.(policy := false); }
      if !env.deletePolicy.Done? {
        if !env.rollback.Failed? { w' := w'.(stored := prev); }
        if env.rollback.Done? { w', reverted := RevertRename(w', renamed, prev.name, env); }
        return;
      }
    }
    ok := true;
  }

  /**
   Saves an agent, renaming its account first.

   When it fails, the account has the stored name or a refresh was run, exactly unless the code
   was misled about what took effect, or found an account that did not have the stored name, as a
   concurrent save may leave it, and failed before its own update. When it succeeds, everything
   was changed.
   */
  method UpdateAgent(w: World, next: Agent, env: Env) returns (w': World, ok: bool, refreshed: bool)
    ensures ok <==>
            && env.checksPass && env.update.Done?
            && (LeavesAttributeBased(w, next) ==> env.deletePolicy.Done?)
            && (Renames(w, next) ==>
                  env.bindOk && !env.lookupFails && (w.account == next.name || (!env.taken && env.rename.Done?)))
    ensures ok ==> w'.stored == next && refreshed && (Renames(w, next) ==> w'.account == next.name)
    ensures ok && LeavesAttributeBased(w, next) ==> !w'.policy
    ensures !ok ==>
              (refreshed || w'.account == w'.stored.name <==>
               !Misled(w, next, env) && (w.account == w.stored.name || StoresRenamed(w, next, env)))
    ensures !ok && !refreshed && ErrorsAreClear(env) && Renames(w, next) ==>
              w' == w || (w'.account == w.stored.name && w'.stored == w.stored)
    ensures !ok && LeavesAttributeBased(w, next) && env.deletePolicy.Failed? && env.rollback.Done? && !env.update.Unclear? ==>
              w'.stored == w.stored && w'.policy == w.policy
  {
    w', ok, refreshed := w, false, false;
    if !env.checksPass { return; }
    var prev := w.stored;
    var renamed, reverted, deferred := false, false, false;
    if next.name != prev.name {
      if !env.bindOk { return; }
      var renameOk;
      w', renamed, renameOk := RenameAgentBot(w', next.name, env);
      if !renameOk { return; }
      deferred := true;
    }
    w', ok, reverted := StoreAgent(w', prev, next, renamed, env);
    refreshed := ok || (deferred && !reverted);
  }
}
