/** Deriving an agent's state from ageing evidence by precedence. */
module AgentState {
  import opened Common
  import opened CurrentSession

  datatype DelegationState = Queued | Claimed | Running | Completed | Failed | Cancelled | Unknown

  datatype Delegation = Delegation(
    parentSessionId: Option<string>, state: DelegationState, startedAt: Stamp, completedAt: Stamp)

  datatype Approval = Approval(pending: bool, agentId: Option<string>, taskId: Option<string>)

  datatype Task = Task(id: string, assignedAgentId: Option<string>, state: string)

  datatype Config = Config(
    activeGrace: int, recentWindow: int, heartbeatHealthy: int, gatewayStale: int, delegationStale: int,
    errorRecency: int)

  datatype Evidence = Evidence(
    profileId: string, configurationState: Option<string>, sessions: seq<Session>, delegations: seq<Delegation>,
    leases: set<string>, approvals: seq<Approval>, tasks: seq<Task>, gatewayStatus: string, gatewayConnected: bool)

  /** Working, Erroneous and NotKnown are the program's ACTIVE, ERROR and UNKNOWN. */
  datatype State =
    | ConfigurationIncomplete | AwaitingApproval | Working | Erroneous | Degraded | RecentlyActive | Idle | Offline
    | NotKnown

  /** Outdated and Unsure are the program's STALE and UNKNOWN. */
  datatype Confidence = Confirmed | Inferred | Outdated | Unsure

  datatype Diagnostic = MultipleCurrentSessions | GatewayDegradedDuringActive | GatewayStaleDuringActive | GatewayStale

  datatype Derived = Derived(
    state: State, confidence: Confidence, currentSession: Option<string>, model: Option<string>,
    sessionCount: Option<nat>, delegationCount: Option<nat>, diagnostics: seq<Diagnostic>)

  // ----------------------------------------------------------------------------
  // The evidence a moment offers
  // ----------------------------------------------------------------------------

  predicate IsRunning(d: Delegation, c: Config, now: int)
  {
    d.state in {Running, Claimed} && !Stale(d.startedAt, c.delegationStale, now)
  }

  function Delegating(ds: seq<Delegation>, c: Config, now: int): set<string>
  {
    set d | d in ds && IsRunning(d, c, now) && d.parentSessionId.Some? && d.parentSessionId.value != ""
      :: d.parentSessionId.value
  }

  function CountActive(ds: seq<Delegation>): nat
  {
    if ds == [] then 0 else CountActive(ds[1..]) + if ds[0].state in {Running, Claimed, Queued} then 1 else 0
  }

  predicate TaskOf(t: Task, profileId: string)
  {
    t.assignedAgentId == Some(profileId) && t.state in ["RUNNING", "AWAITING_APPROVAL", "READY", "QUEUED"]
  }

  /** The approval is about one of the agent's open tasks. */
  predicate IsForTask(a: Approval, e: Evidence)
  {
    && a.taskId.Some? && a.taskId.value != ""
    && exists t :: t in e.tasks && TaskOf(t, e.profileId) && t.id == a.taskId.value
  }

  predicate AwaitsApproval(e: Evidence)
  {
    exists a :: a in e.approvals && a.pending && (a.agentId == Some(e.profileId) || IsForTask(a, e))
  }

  predicate HasLease(e: Evidence)
  {
    exists s :: s in e.sessions && s.id in e.leases
  }

  predicate HasRunning(e: Evidence, c: Config, now: int)
  {
    exists d :: d in e.delegations && IsRunning(d, c, now)
  }

  predicate FailedRecently(e: Evidence, c: Config, now: int)
  {
    || (exists d :: d in e.delegations && d.state == DelegationState.Failed
          && !Stale(Or(d.completedAt, d.startedAt), c.errorRecency, now))
    || (exists s :: s in e.sessions && s.state == SessionState.Failed && !Stale(s.lastActivityAt, c.errorRecency, now))
  }

  predicate Unclosed(s: Session, c: Config, now: int)
  {
    s.state in {Recent, Active} || (s.state != Archived && !Stale(s.lastActivityAt, c.recentWindow, now))
  }

  function FirstUnclosed(sessions: seq<Session>, c: Config, now: int): Option<Session>
  {
    if sessions == [] then None
    else if Unclosed(sessions[0], c, now) then Some(sessions[0])
    else FirstUnclosed(sessions[1..], c, now)
  }

  predicate GatewayHealthy(e: Evidence)
  {
    e.gatewayConnected && e.gatewayStatus == "HEALTHY"
  }

  function Derive(e: Evidence, c: Config, now: int): Derived
  {
    if e.configurationState == Some("INCOMPLETE")
    then Derived(ConfigurationIncomplete, Confirmed, None, None, None, None, [])
    else
      var delegating := Delegating(e.delegations, c, now);
      var current := Choose(e.sessions, e.leases, delegating);
      var diagnostics := if |Candidates(e.sessions, e.leases, delegating)| > 1 then [MultipleCurrentSessions] else [];
      var delegationCount := if e.delegations != [] then Some(CountActive(e.delegations)) else None;
      var sessionCount := if e.sessions != [] then Some(|e.sessions|) else None;
      var id := if current.Some? then Some(current.value.id) else None;
      var model := if current.Some? then current.value.model else None;
      var recent := FirstUnclosed(e.sessions, c, now);
      if AwaitsApproval(e) then
        Derived(AwaitingApproval, Confirmed, id, model, sessionCount, delegationCount, diagnostics)
      else if HasLease(e) || HasRunning(e, c, now) then
        if GatewayHealthy(e) then Derived(Working, Confirmed, id, model, sessionCount, delegationCount, diagnostics)
        else if e.gatewayConnected && e.gatewayStatus == "DEGRADED" then
          Derived(Working, Inferred, id, model, sessionCount, delegationCount,
                  diagnostics + [GatewayDegradedDuringActive])
        else
          Derived(Working, Outdated, id, model, sessionCount, delegationCount, diagnostics + [GatewayStaleDuringActive])
      else if FailedRecently(e, c, now) then
        Derived(Erroneous, Confirmed, None, None, sessionCount, delegationCount, diagnostics)
      else if e.gatewayStatus in ["DEGRADED", "STALE"] && recent.Some? then
        Derived(Degraded, if e.gatewayConnected then Inferred else Outdated, None, recent.value.model,
                sessionCount, delegationCount, diagnostics + [GatewayStale])
      else if recent.Some? && GatewayHealthy(e) then
        Derived(RecentlyActive, Inferred, None, recent.value.model, sessionCount, delegationCount, diagnostics)
      else if e.sessions != [] && GatewayHealthy(e) then
        Derived(Idle, Inferred, None, None, sessionCount, delegationCount, diagnostics)
      else Derived(NotKnown, Unsure, None, None, sessionCount, delegationCount, diagnostics)
  }

  // ----------------------------------------------------------------------------
  // Precedence
  // ----------------------------------------------------------------------------

  function Rank(s: State): nat
  {
    match s
    case ConfigurationIncomplete => 0
    case AwaitingApproval => 1
    case Working => 2
    case Erroneous => 3
    case Degraded => 4
    case RecentlyActive => 5
    case Idle => 6
    case Offline => 7
    case NotKnown => 8
  }

  predicate HasUnclosed(e: Evidence, c: Config, now: int)
  {
    exists s :: s in e.sessions && Unclosed(s, c, now)
  }

  /** What speaks for a state, on its own. */
  predicate Supports(e: Evidence, c: Config, now: int, s: State)
  {
    match s
    case ConfigurationIncomplete => e.configurationState == Some("INCOMPLETE")
    case AwaitingApproval => AwaitsApproval(e)
    case Working => HasLease(e) || HasRunning(e, c, now)
    case Erroneous => FailedRecently(e, c, now)
    case Degraded => e.gatewayStatus in ["DEGRADED", "STALE"] && HasUnclosed(e, c, now)
    case RecentlyActive => GatewayHealthy(e) && HasUnclosed(e, c, now)
    case Idle => GatewayHealthy(e) && e.sessions != []
    case Offline => false
    case NotKnown => true
  }

  lemma {:induction false} FirstUnclosedIff(sessions: seq<Session>, c: Config, now: int)
    ensures FirstUnclosed(sessions, c, now).Some? <==> exists s :: s in sessions && Unclosed(s, c, now)
  {
    hide Unclosed;
    if sessions != [] {
      FirstUnclosedIff(sessions[1..], c, now);
      assert sessions[0] in sessions;
      assert forall s :: s in sessions <==> s == sessions[0] || s in sessions[1..];
    }
  }

  /** The derived state is the first one in the precedence order that the evidence
      supports; nothing ever supports an offline agent. */
  lemma FirstSupportedState(e: Evidence, c: Config, now: int, s: State)
    ensures Derive(e, c, now).state == s <==>
      Supports(e, c, now, s) && forall t :: Supports(e, c, now, t) ==> Rank(s) <= Rank(t)
  {
    hide AwaitsApproval, HasLease, HasRunning, FailedRecently, Choose, Candidates, Delegating, CountActive, Unclosed;
    FirstUnclosedIff(e.sessions, c, now);
    var d := Derive(e, c, now).state;
    assert Supports(e, c, now, d) && forall t :: Supports(e, c, now, t) ==> Rank(d) <= Rank(t);
    assert Rank(d) == Rank(s) ==> d == s;
  }

  // ----------------------------------------------------------------------------
  // Ageing
  // ----------------------------------------------------------------------------

  lemma SupportOnlyFades(e: Evidence, c: Config, now: int, later: int, s: State)
    requires now <= later && Supports(e, c, later, s)
    ensures Supports(e, c, now, s)
  {
    hide AwaitsApproval, HasLease;
  }

  /** With the evidence fixed and time passing, an agent's state only moves down the
      precedence order, whatever the thresholds. */
  lemma AgeingIsMonotone(e: Evidence, c: Config, now: int, later: int)
    requires now <= later
    ensures Rank(Derive(e, c, now).state) <= Rank(Derive(e, c, later).state)
  {
    hide Derive, Supports;
    var s := Derive(e, c, later).state;
    FirstSupportedState(e, c, later, s);
    SupportOnlyFades(e, c, now, later, s);
    FirstSupportedState(e, c, now, Derive(e, c, now).state);
  }

  predicate Outlived(s: Stamp, c: Config, now: int)
  {
    Stale(s, c.delegationStale, now) && Stale(s, c.errorRecency, now) && Stale(s, c.recentWindow, now)
  }

  /** No timestamp of the evidence is fresh by any threshold. */
  predicate AllOutlived(e: Evidence, c: Config, now: int)
  {
    && (forall s :: s in e.sessions ==> Outlived(s.startedAt, c, now) && Outlived(s.lastActivityAt, c, now))
    && (forall d :: d in e.delegations ==> Outlived(d.startedAt, c, now) && Outlived(d.completedAt, c, now))
  }

  /** Where ageing ends: a lease, a pending approval and sessions recorded as recent or
      active never age; running and failed work does. */
  lemma SettledState(e: Evidence, c: Config, now: int)
    requires AllOutlived(e, c, now)
    ensures var s := Derive(e, c, now).state;
            var lingering := exists x :: x in e.sessions && x.state in {Recent, Active};
            && s != Erroneous
            && (s == Working ==> HasLease(e))
            && (s in {Degraded, RecentlyActive} ==> lingering)
            && (lingering && s in {Idle, NotKnown} ==> !GatewayHealthy(e) && e.gatewayStatus !in ["DEGRADED", "STALE"])
  {
    hide Derive, AwaitsApproval;
    FirstSupportedState(e, c, now, Derive(e, c, now).state);
    assert Supports(e, c, now, Derive(e, c, now).state);
    assert Supports(e, c, now, Degraded) ==> Rank(Derive(e, c, now).state) <= Rank(Degraded);
    assert Supports(e, c, now, RecentlyActive) ==> Rank(Derive(e, c, now).state) <= Rank(RecentlyActive);
    assert forall x :: x in e.sessions && x.state in {Recent, Active} ==> Unclosed(x, c, now);
  }

  // ----------------------------------------------------------------------------
  // The current session
  // ----------------------------------------------------------------------------

  /** A current session is only ever shown for an agent that works or awaits approval. It
      is one of the agent's sessions and live: leased, or the parent of a delegation that
      is running at this moment; leased if any of them is. */
  lemma CurrentSessionIsLive(e: Evidence, c: Config, now: int)
    requires Derive(e, c, now).currentSession.Some?
    ensures Derive(e, c, now).state in {AwaitingApproval, Working}
    ensures var id := Derive(e, c, now).currentSession.value;
            && (exists s :: s in e.sessions && s.id == id)
            && (HasLease(e) ==> id in e.leases)
            && (!HasLease(e) ==>
                  exists d :: d in e.delegations && IsRunning(d, c, now) && d.parentSessionId == Some(id))
  {
    hide Candidates, Choose, IsRunning, AwaitsApproval, FailedRecently, Unclosed, StrLess;
    ChosenIsGreatest(e.sessions, e.leases, Delegating(e.delegations, c, now));
  }

  /** An agent can be at work without a current session: exactly when no session of its
      own qualifies and some delegation runs whose parent is none of its sessions. */
  lemma WorkingWithoutSessionIff(e: Evidence, c: Config, now: int)
    requires Derive(e, c, now).state == Working
    ensures Derive(e, c, now).currentSession.None? <==>
      && !HasLease(e)
      && forall d :: d in e.delegations && IsRunning(d, c, now) ==>
           || d.parentSessionId.None? || d.parentSessionId.value == ""
           || forall s :: s in e.sessions ==> s.id != d.parentSessionId.value
  {
    hide Candidates, Choose, IsRunning, AwaitsApproval, FailedRecently, Unclosed, Below;
    ChosenIsGreatest(e.sessions, e.leases, Delegating(e.delegations, c, now));
  }

  // ----------------------------------------------------------------------------
  // What is reported with the state
  // ----------------------------------------------------------------------------

  /** Confidence follows from the state and the gateway alone. */
  lemma ConfidenceIff(e: Evidence, c: Config, now: int)
    ensures var d := Derive(e, c, now);
            && (d.confidence == Confirmed <==>
                  || d.state in {ConfigurationIncomplete, AwaitingApproval, Erroneous}
                  || (d.state == Working && GatewayHealthy(e)))
            && (d.confidence == Outdated <==>
                  || (d.state == Working && !(e.gatewayConnected && e.gatewayStatus in ["HEALTHY", "DEGRADED"]))
                  || (d.state == Degraded && !e.gatewayConnected))
            && (d.confidence == Unsure <==> d.state == NotKnown)
  {
    hide AwaitsApproval, HasLease, HasRunning, FailedRecently, Choose, Candidates, Delegating, CountActive;
    hide FirstUnclosed;
  }

  /** Several live sessions are flagged in every state of a configured agent; trouble with
      the gateway only while the agent works or is degraded. */
  lemma DiagnosticsIff(e: Evidence, c: Config, now: int)
    requires UniqueIds(e.sessions)
    ensures var d := Derive(e, c, now);
            && (MultipleCurrentSessions in d.diagnostics <==>
                  d.state != ConfigurationIncomplete
                  && |Qualifying(e.sessions, e.leases, Delegating(e.delegations, c, now))| > 1)
            && (GatewayStale in d.diagnostics <==> d.state == Degraded)
            && (GatewayDegradedDuringActive in d.diagnostics <==> d.state == Working && d.confidence == Inferred)
            && (GatewayStaleDuringActive in d.diagnostics <==> d.state == Working && d.confidence == Outdated)
  {
    hide AwaitsApproval, HasLease, HasRunning, FailedRecently, Choose, Candidates, Delegating, CountActive;
    hide FirstUnclosed, Qualifying;
    CandidatesCount(e.sessions, e.leases, Delegating(e.delegations, c, now));
  }

  lemma {:induction false} FirstUnclosedFound(sessions: seq<Session>, c: Config, now: int)
    requires FirstUnclosed(sessions, c, now).Some?
    ensures var s := FirstUnclosed(sessions, c, now).value; s in sessions && Unclosed(s, c, now)
  {
    hide Unclosed;
    if !Unclosed(sessions[0], c, now) {
      FirstUnclosedFound(sessions[1..], c, now);
    }
  }

  predicate ExplainsModel(s: Session, d: Derived, c: Config, now: int)
  {
    s.model == d.model
    && if d.state in {Degraded, RecentlyActive} then Unclosed(s, c, now) else d.currentSession == Some(s.id)
  }

  /** A reported model is that of the current session, or of an unclosed one for an agent
      that is degraded or recently active; an unknown number is never reported as zero. */
  lemma ReportsAreGrounded(e: Evidence, c: Config, now: int)
    ensures var d := Derive(e, c, now);
            && (d.model.Some? ==> exists s :: s in e.sessions && ExplainsModel(s, d, c, now))
            && (d.sessionCount
                == if d.state == ConfigurationIncomplete || e.sessions == [] then None else Some(|e.sessions|))
            && (d.delegationCount.None? <==> d.state == ConfigurationIncomplete || e.delegations == [])
  {
    hide AwaitsApproval, HasLease, HasRunning, FailedRecently, Choose, Candidates, Delegating, CountActive;
    hide FirstUnclosed, Unclosed;
    var current := Choose(e.sessions, e.leases, Delegating(e.delegations, c, now));
    ChosenIsGreatest(e.sessions, e.leases, Delegating(e.delegations, c, now));
    if FirstUnclosed(e.sessions, c, now).Some? {
      FirstUnclosedFound(e.sessions, c, now);
    }
  }

  // ----------------------------------------------------------------------------
  // Independence of order
  // ----------------------------------------------------------------------------

  lemma {:induction false} CountConcat(a: seq<Delegation>, b: seq<Delegation>)
    ensures CountActive(a + b) == CountActive(a) + CountActive(b)
  {
    if a == [] {
      assert a + b == b;
    } else {
      assert (a + b)[1..] == a[1..] + b;
      CountConcat(a[1..], b);
    }
  }

  lemma RemoveOne(b: seq<Delegation>, j: nat)
    requires j < |b|
    ensures CountActive(b) == CountActive([b[j]] + (b[..j] + b[j + 1..]))
  {
    hide CountActive;
    assert b == b[..j] + ([b[j]] + b[j + 1..]);
    CountConcat(b[..j], [b[j]] + b[j + 1..]);
    CountConcat([b[j]], b[j + 1..]);
    CountConcat(b[..j], b[j + 1..]);
    CountConcat([b[j]], b[..j] + b[j + 1..]);
  }

  lemma RestOf(b: seq<Delegation>, j: nat)
    requires j < |b|
    ensures multiset(b[..j] + b[j + 1..]) == multiset(b) - multiset{b[j]}
  {
    assert b == b[..j] + [b[j]] + b[j + 1..];
  }

  lemma {:induction false} CountPermuted(a: seq<Delegation>, b: seq<Delegation>)
    requires multiset(a) == multiset(b)
    ensures CountActive(a) == CountActive(b)
  {
    if a == [] {
      assert |multiset(b)| == 0;
    } else {
      assert a[0] in multiset(b);
      var j :| 0 <= j < |b| && b[j] == a[0];
      RemoveOne(b, j);
      RestOf(b, j);
      assert a == [a[0]] + a[1..];
      assert multiset(a) == multiset{a[0]} + multiset(a[1..]);
      CountPermuted(a[1..], b[..j] + b[j + 1..]);
    }
  }

  lemma PermutedMembers<T>(a: seq<T>, b: seq<T>)
    requires multiset(a) == multiset(b)
    ensures |a| == |b| && forall x :: x in a <==> x in b
  {
    assert |multiset(a)| == |multiset(b)|;
    assert forall x :: (x in a <==> x in multiset(a)) && (x in b <==> x in multiset(b));
  }

  predicate Permuted(e: Evidence, f: Evidence)
  {
    && f == e.(sessions := f.sessions, delegations := f.delegations)
    && multiset(e.sessions) == multiset(f.sessions) && multiset(e.delegations) == multiset(f.delegations)
  }

  lemma PermutedGuards(e: Evidence, f: Evidence, c: Config, now: int)
    requires Permuted(e, f)
    ensures AwaitsApproval(e) == AwaitsApproval(f) && HasLease(e) == HasLease(f)
    ensures HasRunning(e, c, now) == HasRunning(f, c, now)
    ensures FailedRecently(e, c, now) == FailedRecently(f, c, now) && GatewayHealthy(e) == GatewayHealthy(f)
    ensures FirstUnclosed(e.sessions, c, now).Some? == FirstUnclosed(f.sessions, c, now).Some?
  {
    hide FirstUnclosed, Unclosed, IsRunning, Stale, TaskOf;
    PermutedMembers(e.sessions, f.sessions);
    PermutedMembers(e.delegations, f.delegations);
    FirstUnclosedIff(e.sessions, c, now);
    FirstUnclosedIff(f.sessions, c, now);
  }

  lemma PermutedSelection(e: Evidence, f: Evidence, c: Config, now: int)
    requires Permuted(e, f) && UniqueIds(e.sessions) && UniqueIds(f.sessions)
    ensures var x, y := Delegating(e.delegations, c, now), Delegating(f.delegations, c, now);
            && Choose(e.sessions, e.leases, x) == Choose(f.sessions, f.leases, y)
            && |Candidates(e.sessions, e.leases, x)| == |Candidates(f.sessions, f.leases, y)|
    ensures |e.sessions| == |f.sessions| && |e.delegations| == |f.delegations|
    ensures CountActive(e.delegations) == CountActive(f.delegations)
  {
    hide Candidates, Choose, IsRunning, CountActive, Qualifies;
    PermutedMembers(e.sessions, f.sessions);
    PermutedMembers(e.delegations, f.delegations);
    CountPermuted(e.delegations, f.delegations);
    var x := Delegating(e.delegations, c, now);
    assert Delegating(f.delegations, c, now) == x;
    ChoiceOrderFree(e.sessions, f.sessions, e.leases, x);
    CandidatesCount(e.sessions, e.leases, x);
    CandidatesCount(f.sessions, e.leases, x);
    assert Qualifying(e.sessions, e.leases, x) == Qualifying(f.sessions, e.leases, x);
  }

  /** The order in which sessions and delegations arrive shows in one place only: which
      unclosed session's model is reported for a degraded or recently active agent. */
  lemma DerivationOrderFree(e: Evidence, f: Evidence, c: Config, now: int)
    requires Permuted(e, f) && UniqueIds(e.sessions) && UniqueIds(f.sessions)
    ensures var x, y := Derive(e, c, now), Derive(f, c, now);
            && y == x.(model := y.model)
            && (x.state !in {Degraded, RecentlyActive} ==> x == y)
  {
    hide Candidates, Choose, Delegating, CountActive, FirstUnclosed, AwaitsApproval, HasLease, HasRunning;
    hide FailedRecently, UniqueIds;
    PermutedGuards(e, f, c, now);
    PermutedSelection(e, f, c, now);
  }
}
