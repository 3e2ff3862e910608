/** Canonical snapshots, the delta between two of them, and the equivalence a delta
    is computed up to. */
module Delta {
  import opened Common
  import opened Entities

  // ----------------------------------------------------------------------------
  // Data shapes
  // ----------------------------------------------------------------------------

  datatype Gateway = Gateway(
    status: string, connected: bool, latencyMs: int, lastHeartbeatAt: string,
    host: Option<string>, pid: Option<int>, backendId: Option<string>,
    heartbeatAgeSeconds: Option<int>, restartCount: Option<int>,
    platforms: Option<map<string, string>>)

  /** `details` stands for the overview's other descriptive columns, none of which is compared. */
  datatype RuntimeOverview = RuntimeOverview(
    status: string, uptimeSeconds: int, activeSessionsCount: int, activeWorkersCount: int,
    confidence: Option<string>, details: map<string, string>)

  datatype AgentDefinition = AgentDefinition(
    id: Option<string>, name: string, role: Option<string>, description: Option<string>, enabled: bool,
    memoryNamespace: Option<string>, allowedSkills: Option<seq<string>>)

  datatype AgentRuntime = AgentRuntime(
    state: string, confidence: string, lastActivityAt: Option<string>, sessionCount: Option<int>,
    activeDelegations: Option<int>, currentSessionId: Option<string>, currentTaskId: Option<string>,
    model: Option<string>)

  datatype AgentCapabilities = AgentCapabilities(
    total: Option<int>, healthy: Option<int>, degraded: Option<int>, missing: Option<int>)

  datatype AgentUsage = AgentUsage(
    inputTokens: Option<int>, outputTokens: Option<int>,
    estimatedCostUsd: Option<real>, actualCostUsd: Option<real>)

  datatype AgentBody = AgentBody(
    definition: AgentDefinition, runtime: AgentRuntime, capabilities: AgentCapabilities,
    usage: Option<AgentUsage>, skills: Option<seq<string>>)

  datatype DelegationBody = DelegationBody(
    parentSessionId: Option<string>, targetAgentId: Option<string>, taskTitle: string, state: string,
    workerPid: Option<string>, ownerPid: Option<int>, startedAt: string, completedAt: Option<string>)

  datatype AttentionBody = AttentionBody(
    kind: string, severity: string, title: string, description: Option<string>,
    timestamp: Option<string>, relatedEntityIds: Option<map<string, string>>, entityType: Option<string>)

  type Agent = Entity<AgentBody>
  type Delegation = Entity<DelegationBody>
  type AttentionItem = Entity<AttentionBody>

  datatype Snapshot = Snapshot(
    generatedAt: string, revision: int, gateway: Gateway, runtimeSummary: RuntimeOverview,
    agents: seq<Agent>, taskSummary: map<string, int>, approvalSummary: map<string, int>,
    activeDelegations: seq<Delegation>, attention: seq<AttentionItem>)

  datatype Changes = Changes(
    gateway: Option<Gateway>, runtimeSummary: Option<RuntimeOverview>,
    agents: Option<EntityDelta<AgentBody>>,
    taskSummary: Option<map<string, int>>, approvalSummary: Option<map<string, int>>,
    activeDelegations: Option<EntityDelta<DelegationBody>>,
    attention: Option<EntityDelta<AttentionBody>>)
  {
    predicate HasChanges()
    {
      || gateway.Some?
      || runtimeSummary.Some?
      || (agents.Some? && !agents.value.IsEmpty())
      || taskSummary.Some?
      || approvalSummary.Some?
      || (activeDelegations.Some? && !activeDelegations.value.IsEmpty())
      || (attention.Some? && !attention.value.IsEmpty())
    }
  }

  datatype RealtimeDelta = RealtimeDelta(
    baseRevision: int, revision: int, generatedAt: string, changes: Changes)

  // ----------------------------------------------------------------------------
  // Computing a delta
  // ----------------------------------------------------------------------------

  predicate GatewayChanged(prev: Gateway, curr: Gateway)
  {
    || prev.status != curr.status
    || prev.connected != curr.connected
    || prev.latencyMs != curr.latencyMs
    || prev.lastHeartbeatAt != curr.lastHeartbeatAt
    || prev.host != curr.host
    || prev.pid != curr.pid
    || prev.backendId != curr.backendId
    || prev.restartCount != curr.restartCount
  }

  predicate SummaryChanged(prev: RuntimeOverview, curr: RuntimeOverview)
  {
    || prev.status != curr.status
    || prev.activeSessionsCount != curr.activeSessionsCount
    || prev.activeWorkersCount != curr.activeWorkersCount
    || prev.confidence != curr.confidence
  }

  predicate AgentChanged(prev: AgentBody, curr: AgentBody)
  {
    if prev.definition != curr.definition then true
    else if prev.runtime != curr.runtime then true
    else if prev.capabilities != curr.capabilities then true
    else prev.usage != curr.usage
  }

  predicate DelegationChanged(prev: DelegationBody, curr: DelegationBody)
  {
    prev != curr
  }

  predicate AttentionChanged(prev: AttentionBody, curr: AttentionBody)
  {
    prev != curr
  }

  function Present<T>(d: EntityDelta<T>): Option<EntityDelta<T>>
  {
    if d.upsert != [] || d.remove != [] then Some(d) else None
  }

  function ChangesBetween(prev: Snapshot, curr: Snapshot): Changes
  {
    Changes(
      if GatewayChanged(prev.gateway, curr.gateway) then Some(curr.gateway) else None,
      if SummaryChanged(prev.runtimeSummary, curr.runtimeSummary) then Some(curr.runtimeSummary) else None,
      Present(Diff(prev.agents, curr.agents, AgentChanged)),
      if prev.taskSummary != curr.taskSummary then Some(curr.taskSummary) else None,
      if prev.approvalSummary != curr.approvalSummary then Some(curr.approvalSummary) else None,
      Present(Diff(prev.activeDelegations, curr.activeDelegations, DelegationChanged)),
      Present(Diff(prev.attention, curr.attention, AttentionChanged)))
  }

  function DeltaBetween(prev: Snapshot, curr: Snapshot): Option<RealtimeDelta>
  {
    var changes := ChangesBetween(prev, curr);
    if !changes.HasChanges() then None
    else Some(RealtimeDelta(prev.revision, curr.revision, curr.generatedAt, changes))
  }

  /** The delta service: seven comparisons filling in a change record. */
  method ComputeDelta(prev: Snapshot, curr: Snapshot) returns (delta: Option<RealtimeDelta>)
    ensures delta == DeltaBetween(prev, curr)
  {
    var changes := ChangedScalars(prev, curr);
    var agents := DiffEntities(prev.agents, curr.agents, AgentChanged);
    if agents.upsert != [] || agents.remove != [] {
      changes := changes.(agents := Some(agents));
    }
    var delegations := DiffEntities(prev.activeDelegations, curr.activeDelegations, DelegationChanged);
    if delegations.upsert != [] || delegations.remove != [] {
      changes := changes.(activeDelegations := Some(delegations));
    }
    var attention := DiffEntities(prev.attention, curr.attention, AttentionChanged);
    if attention.upsert != [] || attention.remove != [] {
      changes := changes.(attention := Some(attention));
    }
    assert changes == ChangesBetween(prev, curr);
    if !changes.HasChanges() {
      return None;
    }
    delta := Some(RealtimeDelta(prev.revision, curr.revision, curr.generatedAt, changes));
  }

  method ChangedScalars(prev: Snapshot, curr: Snapshot) returns (changes: Changes)
    ensures changes == ChangesBetween(prev, curr).(agents := None, activeDelegations := None, attention := None)
  {
    changes := Changes(None, None, None, None, None, None, None);
    if GatewayChanged(prev.gateway, curr.gateway) {
      changes := changes.(gateway := Some(curr.gateway));
    }
    if SummaryChanged(prev.runtimeSummary, curr.runtimeSummary) {
      changes := changes.(runtimeSummary := Some(curr.runtimeSummary));
    }
    if prev.taskSummary != curr.taskSummary {
      changes := changes.(taskSummary := Some(curr.taskSummary));
    }
    if prev.approvalSummary != curr.approvalSummary {
      changes := changes.(approvalSummary := Some(curr.approvalSummary));
    }
  }

  // ----------------------------------------------------------------------------
  // The client's update
  // ----------------------------------------------------------------------------

  function ApplyOptional<T>(s: seq<Entity<T>>, d: Option<EntityDelta<T>>): seq<Entity<T>>
  {
    if d.Some? then ApplyEntities(s, d.value) else s
  }

  function GetOr<T>(o: Option<T>, default: T): T
  {
    if o.Some? then o.value else default
  }

  /** Replace each scalar that is present; upsert and remove entities by id. */
  function Apply(s: Snapshot, d: RealtimeDelta): Snapshot
  {
    Snapshot(
      d.generatedAt, d.revision,
      GetOr(d.changes.gateway, s.gateway),
      GetOr(d.changes.runtimeSummary, s.runtimeSummary),
      ApplyOptional(s.agents, d.changes.agents),
      GetOr(d.changes.taskSummary, s.taskSummary),
      GetOr(d.changes.approvalSummary, s.approvalSummary),
      ApplyOptional(s.activeDelegations, d.changes.activeDelegations),
      ApplyOptional(s.attention, d.changes.attention))
  }

  // ----------------------------------------------------------------------------
  // Snapshots up to what a delta observes
  // ----------------------------------------------------------------------------

  function StableGateway(g: Gateway): Gateway
  {
    g.(heartbeatAgeSeconds := None, platforms := None)
  }

  function StableSummary(r: RuntimeOverview): (string, int, int, Option<string>)
  {
    (r.status, r.activeSessionsCount, r.activeWorkersCount, r.confidence)
  }

  function StableAgent(a: AgentBody): AgentBody
  {
    a.(skills := None)
  }

  function Whole<T>(x: T): T
  {
    x
  }

  /** Everything in a snapshot that clients are promised: volatile gateway fields,
      agent skills, list order, revision and timestamp are forgotten. */
  datatype Core = Core(
    gateway: Gateway, summary: (string, int, int, Option<string>), agents: map<string, AgentBody>,
    taskSummary: map<string, int>, approvalSummary: map<string, int>,
    activeDelegations: map<string, DelegationBody>, attention: map<string, AttentionBody>)

  function CoreOf(s: Snapshot): Core
  {
    Core(
      StableGateway(s.gateway), StableSummary(s.runtimeSummary), Meaning(ById(s.agents), StableAgent),
      s.taskSummary, s.approvalSummary,
      Meaning(ById(s.activeDelegations), Whole), Meaning(ById(s.attention), Whole))
  }

  /** Two snapshots that no delta tells apart: the same core. */
  predicate Equivalent(a: Snapshot, b: Snapshot)
  {
    CoreOf(a) == CoreOf(b)
  }

  lemma ComparisonsMatchCores()
    ensures Compares(AgentChanged, StableAgent)
    ensures Compares(DelegationChanged, Whole<DelegationBody>)
    ensures Compares(AttentionChanged, Whole<AttentionBody>)
    ensures forall g, h :: GatewayChanged(g, h) <==> StableGateway(g) != StableGateway(h)
    ensures forall r, q :: SummaryChanged(r, q) <==> StableSummary(r) != StableSummary(q)
  {
  }

  /** No delta is produced exactly when nothing observable changed. */
  lemma NoDeltaIffEquivalent(prev: Snapshot, curr: Snapshot)
    ensures DeltaBetween(prev, curr).None? <==> Equivalent(prev, curr)
  {
    ComparisonsMatchCores();
    DiffEmpty(prev.agents, curr.agents, AgentChanged, StableAgent);
    DiffEmpty(prev.activeDelegations, curr.activeDelegations, DelegationChanged, Whole<DelegationBody>);
    DiffEmpty(prev.attention, curr.attention, AttentionChanged, Whole<AttentionBody>);
  }

  lemma ApplyPresent<T(!new)>(state: seq<Entity<T>>, prev: seq<Entity<T>>, curr: seq<Entity<T>>,
                              changed: (T, T) -> bool, norm: T -> T)
    requires Compares(changed, norm)
    requires Meaning(ById(state), norm) == Meaning(ById(prev), norm)
    ensures Meaning(ById(ApplyOptional(state, Present(Diff(prev, curr, changed)))), norm) == Meaning(ById(curr), norm)
  {
    DiffApplies(state, prev, curr, changed, norm);
    DiffEmpty(prev, curr, changed, norm);
  }

  /** A delta takes every state equivalent to its base to one equivalent to its target. */
  lemma DeltaApplies(state: Snapshot, prev: Snapshot, curr: Snapshot)
    requires Equivalent(state, prev)
    requires DeltaBetween(prev, curr).Some?
    ensures Equivalent(Apply(state, DeltaBetween(prev, curr).value), curr)
  {
    ComparisonsMatchCores();
    ApplyPresent(state.agents, prev.agents, curr.agents, AgentChanged, StableAgent);
    ApplyPresent(state.activeDelegations, prev.activeDelegations, curr.activeDelegations,
                 DelegationChanged, Whole<DelegationBody>);
    ApplyPresent(state.attention, prev.attention, curr.attention, AttentionChanged, Whole<AttentionBody>);
  }

  /** Equivalent client states stay equivalent under any delta whatsoever. */
  lemma ApplyRespectsEquivalence(a: Snapshot, b: Snapshot, d: RealtimeDelta)
    requires Equivalent(a, b)
    ensures Equivalent(Apply(a, d), Apply(b, d))
  {
    EntitiesRespectMeaning(a.agents, b.agents, d.changes.agents, StableAgent);
    EntitiesRespectMeaning(a.activeDelegations, b.activeDelegations, d.changes.activeDelegations,
                           Whole<DelegationBody>);
    EntitiesRespectMeaning(a.attention, b.attention, d.changes.attention, Whole<AttentionBody>);
  }

  lemma EntitiesRespectMeaning<T>(a: seq<Entity<T>>, b: seq<Entity<T>>, d: Option<EntityDelta<T>>, norm: T -> T)
    requires Meaning(ById(a), norm) == Meaning(ById(b), norm)
    ensures Meaning(ById(ApplyOptional(a, d)), norm) == Meaning(ById(ApplyOptional(b, d)), norm)
  {
    if d.Some? {
      ApplyById(a, d.value);
      ApplyById(b, d.value);
      SameMeaning(ById(a), ById(b), norm);
      SameMeaning(ById(ApplyOptional(a, d)), ById(ApplyOptional(b, d)), norm);
    }
  }

  predicate SameContents<T(==)>(a: seq<Entity<T>>, b: seq<Entity<T>>)
  {
    DistinctIds(a) && DistinctIds(b) && multiset(a) == multiset(b)
  }

  /** `b` is `a` with its lists reordered, no list repeating an id. */
  predicate Reordered(a: Snapshot, b: Snapshot)
  {
    && b == a.(agents := b.agents, activeDelegations := b.activeDelegations, attention := b.attention)
    && SameContents(a.agents, b.agents)
    && SameContents(a.activeDelegations, b.activeDelegations)
    && SameContents(a.attention, b.attention)
  }

  lemma DiffOrderFree<T(!new)>(p: seq<Entity<T>>, p': seq<Entity<T>>, c: seq<Entity<T>>, c': seq<Entity<T>>,
                               changed: (T, T) -> bool)
    requires SameContents(p, p') && SameContents(c, c')
    ensures Diff(p, c, changed) == Diff(p', c', changed)
  {
    ByIdOrderFree(p, p');
    ByIdOrderFree(c, c');
    DiffIsDiff(p, c, changed);
    DiffIsDiff(p', c', changed);
    DiffUnique(ById(p), ById(c), changed, Diff(p, c, changed), Diff(p', c', changed));
  }

  /** The delta does not depend on the order in which entities were listed. */
  lemma DeltaOrderFree(prev: Snapshot, prev': Snapshot, curr: Snapshot, curr': Snapshot)
    requires Reordered(prev, prev') && Reordered(curr, curr')
    ensures DeltaBetween(prev, curr) == DeltaBetween(prev', curr')
  {
    DiffOrderFree(prev.agents, prev'.agents, curr.agents, curr'.agents, AgentChanged);
    DiffOrderFree(prev.activeDelegations, prev'.activeDelegations, curr.activeDelegations, curr'.activeDelegations,
                  DelegationChanged);
    DiffOrderFree(prev.attention, prev'.attention, curr.attention, curr'.attention, AttentionChanged);
  }

  /** `a` carries nothing that `b` does not carry too. */
  ghost predicate EntitiesWithin<T(!new)>(a: Option<EntityDelta<T>>, b: Option<EntityDelta<T>>)
  {
    a.Some? ==>
      && b.Some?
      && (forall i :: 0 <= i < |a.value.upsert| ==> a.value.upsert[i].id in ById(b.value.upsert))
      && (forall i :: 0 <= i < |a.value.upsert| ==> a.value.upsert[i].id !in a.value.remove)
      && (forall id :: id in a.value.remove ==> id in b.value.remove)
  }

  lemma EntitiesMinimal<T(!new)>(prev: seq<Entity<T>>, curr: seq<Entity<T>>, changed: (T, T) -> bool,
                                 norm: T -> T, other: Option<EntityDelta<T>>)
    requires Compares(changed, norm)
    requires Meaning(ById(ApplyOptional(prev, other)), norm) == Meaning(ById(curr), norm)
    ensures EntitiesWithin(Present(Diff(prev, curr, changed)), other)
  {
    DiffEmpty(prev, curr, changed, norm);
    if other.Some? {
      DiffMinimal(prev, curr, changed, norm, other.value);
    }
  }

  /** Any delta that takes `prev` to something equivalent to `curr` carries at least
      every part that the computed delta carries. */
  lemma DeltaMinimal(prev: Snapshot, curr: Snapshot, other: RealtimeDelta)
    requires DeltaBetween(prev, curr).Some?
    requires Equivalent(Apply(prev, other), curr)
    ensures var c, o := DeltaBetween(prev, curr).value.changes, other.changes;
            && (c.gateway.Some? ==> o.gateway.Some?)
            && (c.runtimeSummary.Some? ==> o.runtimeSummary.Some?)
            && (c.taskSummary.Some? ==> o.taskSummary.Some?)
            && (c.approvalSummary.Some? ==> o.approvalSummary.Some?)
            && EntitiesWithin(c.agents, o.agents)
            && EntitiesWithin(c.activeDelegations, o.activeDelegations)
            && EntitiesWithin(c.attention, o.attention)
  {
    ComparisonsMatchCores();
    EntitiesMinimal(prev.agents, curr.agents, AgentChanged, StableAgent, other.changes.agents);
    EntitiesMinimal(prev.activeDelegations, curr.activeDelegations, DelegationChanged, Whole<DelegationBody>,
                    other.changes.activeDelegations);
    EntitiesMinimal(prev.attention, curr.attention, AttentionChanged, Whole<AttentionBody>, other.changes.attention);
  }
}
