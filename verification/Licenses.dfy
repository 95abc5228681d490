/** License levels and what they allow (enterprise/license.go). */
module Licenses {
  import opened Wrappers

  /** 0 is no license. */
  type Level = n: nat | n <= 3

  const PROFESSIONAL: Level := 1
  const ENTERPRISE: Level := 2
  const ENTERPRISE_ADVANCED: Level := 3

  datatype Capability =
    | ProviderWebSearch | AgentAccessControls | TokenAccounting
    | MultipleLLMServices | SovereignWebSearch | ToolApprovalPolicies | RemoteMCP
    | SemanticSearch | Meetings | MCPServiceAccount
    | AttributeBasedAccess | ModelFallback

  function RequiredLevel(c: Capability): Level {
    match c
    case ProviderWebSearch => PROFESSIONAL
    case AgentAccessControls => PROFESSIONAL
    case TokenAccounting => PROFESSIONAL
    case AttributeBasedAccess => ENTERPRISE_ADVANCED
    case ModelFallback => ENTERPRISE_ADVANCED
    case _ => ENTERPRISE
  }

  predicate Allows(level: Level, c: Capability) {
    level >= RequiredLevel(c)
  }

  /** The most agents that may be active; None when there is no cap. */
  function AgentLimitFor(level: Level): Option<nat> {
    if level >= ENTERPRISE then None else if level >= PROFESSIONAL then Some(3) else Some(1)
  }

  function ServiceLimitFor(level: Level): Option<nat> {
    if level >= ENTERPRISE then None else Some(1)
  }

  /** More than a cap allows. */
  predicate Exceeds(n: nat, limit: Option<nat>) {
    limit.Some? && n > limit.value
  }

  /** What each level allows, and how many agents and services. */
  lemma WhatEachLevelAllows(c: Capability)
    ensures !Allows(0, c)
    ensures Allows(1, c) <==> c in {ProviderWebSearch, AgentAccessControls, TokenAccounting}
    ensures Allows(2, c) <==> c !in {AttributeBasedAccess, ModelFallback}
    ensures Allows(3, c)
    ensures AgentLimitFor(0) == Some(1) && AgentLimitFor(1) == Some(3) && AgentLimitFor(2) == AgentLimitFor(3) == None
    ensures ServiceLimitFor(0) == ServiceLimitFor(1) == Some(1) && ServiceLimitFor(2) == ServiceLimitFor(3) == None
  {
  }

  /** A higher level includes all that a lower one allows, and its caps are no lower. */
  lemma LevelsAreOrdered(level: Level, higher: Level, c: Capability, n: nat)
    requires level <= higher
    ensures Allows(level, c) ==> Allows(higher, c)
    ensures Exceeds(n, AgentLimitFor(higher)) ==> Exceeds(n, AgentLimitFor(level))
    ensures Exceeds(n, ServiceLimitFor(higher)) ==> Exceeds(n, ServiceLimitFor(level))
  {
  }
}
