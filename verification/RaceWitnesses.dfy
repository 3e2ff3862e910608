/** Histories in which an overlapping preflight breaks a guarantee. */
module RaceWitnesses {
  import opened Common
  import opened Audit
  import opened Governance
  import opened Intents
  import opened IntentRuns
  import opened IntentGuarantees
  import opened PreflightRaces
  import opened RevisionRaces

  // ----------------------------------------------------------------------------
  // Calls that go through
  // ----------------------------------------------------------------------------

  /** A known intent that is within its time reads as it stands. */
  lemma Reads(s: System, id: string, now: int, env: Env)
    requires Inv(s, env) && id in s.db.intents && now <= s.db.intents[id].expiresAt
    ensures Get(s.db, id, now, env) == (s.db, Ok(s.db.intents[id]))
  {
    hide Sealed, RowOk, ValidChain, CountFor;
    assert IntentOk(s, id, env);
    assert s.db.intents[id := s.db.intents[id]] == s.db.intents;
  }

  lemma Begins(s: System, t: TimedCall, env: Env)
    requires Inv(s, env) && t.call.BeginPreflight? && t.call.id in s.db.intents
    requires t.at.now <= s.db.intents[t.call.id].expiresAt
    ensures Step(s, t, env).0 == s.(tasks := s.tasks[t.call.task := Remembered(t.call.id, s.db.intents[t.call.id])])
  {
    hide Get, Inv;
    Reads(s, t.call.id, t.at.now, env);
  }

  lemma RequestGoesThrough(s: System, t: TimedCall, env: Env)
    requires Inv(s, env) && t.call.RequestApproval? && t.call.id in s.db.intents
    requires t.at.now <= s.db.intents[t.call.id].expiresAt
    requires s.db.intents[t.call.id].status == ReadyToExecute
    ensures var (s', r) := Step(s, t, env);
            r.Ok? && s'.tasks == s.tasks
            && Wrote(s, s', t.call.id, s.db.intents[t.call.id].(status := PendingApproval), Pending, 0)
  {
    hide Get, Inv, Append, RequestEntry;
    Reads(s, t.call.id, t.at.now, env);
    StepRows(s, t, env);
  }

  lemma RejectionGoesThrough(s: System, t: TimedCall, env: Env)
    requires Inv(s, env) && t.call.RejectIntent? && t.call.id in s.db.intents
    requires var i := s.db.intents[t.call.id];
             && t.at.now <= i.expiresAt && i.status in {ReadyForApproval, PendingApproval}
             && (t.call.expectedRevision.Some? ==> i.preflightRevision == t.call.expectedRevision.value)
    ensures var (s', r) := Step(s, t, env);
            var i := s.db.intents[t.call.id];
            r.Ok? && s'.tasks == s.tasks
            && Wrote(s, s', t.call.id, i.(status := Rejected, preflightRevision := i.preflightRevision + 1), Refused, 1)
  {
    hide Get, Inv, Append, RejectionEntry, Commit, Wrote;
    Reads(s, t.call.id, t.at.now, env);
    StepRows(s, t, env);
  }

  lemma ApprovalGoesThrough(s: System, t: TimedCall, env: Env)
    requires Inv(s, env) && t.call.ApproveIntent? && t.call.id in s.db.intents
    requires t.at.now <= s.db.intents[t.call.id].expiresAt
    requires ApprovalObstacle(s.db.intents[t.call.id], t.call, env.settings).None?
    ensures var (s', r) := Step(s, t, env);
            var i := s.db.intents[t.call.id];
            r.Ok? && s'.tasks == s.tasks
            && Wrote(s, s', t.call.id, i.(
                 status := ReadyToExecute, authorizationId := Some(t.call.authorizationId),
                 preflightRevision := i.preflightRevision + 1), Granted, 1)
  {
    hide Get, Append, ApprovalEntry, ReadyEntry, Commit, Wrote, OrDefault, ApprovalObstacle, IntentOk, TaskOk, Known;
    hide ValidChain;
    Reads(s, t.call.id, t.at.now, env);
    StepRows(s, t, env);
  }

  lemma FinishGoesThrough(s: System, t: TimedCall, env: Env)
    requires t.call.FinishPreflight? && t.call.task in s.tasks && s.tasks[t.call.task].id in s.db.intents
    ensures var (s', r) := Step(s, t, env);
            var p := s.tasks[t.call.task];
            r.Ok? && s'.tasks == s.tasks - {t.call.task} && s'.db.approvals == s.db.approvals
            && s'.db.intents == s.db.intents[p.id := Preflighted(s.db.intents[p.id], p.seen, t.call.preflight)]
  {
    hide Append, PreflightEntry, Preflighted;
  }

  // ----------------------------------------------------------------------------
  // A rejected intent that is ready
  // ----------------------------------------------------------------------------

  /** A preflight begins on a released intent; while it waits, approval is requested anew
      and refused; then it finishes. */
  function Overlap(id: string, task: nat, actor: Principal, at: Instant): seq<TimedCall>
  {
    [TimedCall(BeginPreflight(id, task), at),
     TimedCall(RequestApproval(id, actor, "", ""), at),
     TimedCall(RejectIntent(id, actor, "", None, None, ""), at),
     TimedCall(FinishPreflight(task, RequiresApproval, None, ""), at)]
  }

  ghost function PlayFour(s: System, calls: seq<TimedCall>, env: Env): System
    requires |calls| == 4
  {
    var s1 := Step(s, calls[0], env).0;
    var s2 := Step(s1, calls[1], env).0;
    var s3 := Step(s2, calls[2], env).0;
    Step(s3, calls[3], env).0
  }

  /** Every released intent that is within its time: after this the intent is ready although
      its approval row says refused. */
  lemma OverlapBreaksGate(s: System, id: string, task: nat, actor: Principal, at: Instant, env: Env)
    requires Inv(s, env) && NeedsApproval(s, id) && s.db.intents[id].status == ReadyToExecute
    requires at.now <= s.db.intents[id].expiresAt
    ensures var s' := PlayFour(s, Overlap(id, task, actor, at), env);
            && id in s'.db.intents && s'.db.intents[id].status == ReadyToExecute
            && id in s'.db.approvals && s'.db.approvals[id].state == Refused && !GateHolds(s', id)
  {
    hide Step, Inv;
    var calls := Overlap(id, task, actor, at);
    KeyedApprovals(s, id, env);
    var s1 := Step(s, calls[0], env).0;
    Begins(s, calls[0], env);
    StepKeepsInv(s, calls[0], env);
    var s2 := Step(s1, calls[1], env).0;
    RequestGoesThrough(s1, calls[1], env);
    StepKeepsInv(s1, calls[1], env);
    var s3 := Step(s2, calls[2], env).0;
    RejectionGoesThrough(s2, calls[2], env);
    FinishGoesThrough(s3, calls[3], env);
  }

  const REQUESTER := Principal("requester", ["operator"], [])
  const APPROVER := Principal("approver", ["approver"], [])

  const DISPATCH := NewIntent("TASK_DISPATCH", "TASK", "task", Payload(false, false, false, "{}"))

  function Creation(): TimedCall
  {
    TimedCall(CreateIntent("intent", DISPATCH, Pass, REQUESTER, "", "", ""), Instant(0, ""))
  }

  /** Everything after the creation happens just within the intent's time. */
  function Deadline(env: Env): Instant
  {
    Instant(env.settings.highRiskTtl, "")
  }

  function Phrase(env: Env): Option<string>
  {
    EvaluatePolicy("TASK_DISPATCH", High, env.settings).confirmationPhrase
  }

  function Approval(expected: Option<int>, env: Env): TimedCall
  {
    TimedCall(ApproveIntent("intent", APPROVER, None, Phrase(env), expected, None, "", "", ""), Deadline(env))
  }

  /** The freshly created high-risk intent waits for approval at revision one. */
  predicate Created(s: System, env: Env)
  {
    && "intent" in s.db.intents && "intent" in s.db.approvals
    && var i := s.db.intents["intent"];
       && i.actionType == "TASK_DISPATCH" && i.risk == High && i.requiresApproval && i.requestedBy == "requester"
       && i.status == ReadyForApproval && i.preflightRevision == 1 && i.expiresAt == env.settings.highRiskTtl
  }

  lemma CreationGoesThrough(env: Env)
    ensures Created(Step(Fresh(env.digest), Creation(), env).0, env)
  {
    hide ValidChain, Append, CreationEntry, SignedOf;
    GenesisValid(env.digest);
    assert "TASK_DISPATCH" == ALLOWED_ACTIONS[0];
  }

  lemma PhraseConfirms(env: Env)
    ensures Confirmed(EvaluatePolicy("TASK_DISPATCH", High, env.settings), Phrase(env))
  {
    assert Phrase(env).value[0] == 'A';
  }

  lemma ApproverMayApprove(i: Intent, expected: Option<int>, env: Env)
    requires i.actionType == "TASK_DISPATCH" && i.risk == High && i.requestedBy == "requester"
    requires i.status == ReadyForApproval && (expected.Some? ==> i.preflightRevision == expected.value)
    ensures ApprovalObstacle(i, Approval(expected, env).call, env.settings).None?
  {
    hide Confirmed, EvaluatePolicy, Phrase;
    PhraseConfirms(env);
    assert MayApprove(APPROVER);
    assert "approver"[0] != "requester"[0];
  }

  /** Created, approved, and then overlapped. */
  function BrokenGate(env: Env): seq<TimedCall>
  {
    [Creation(), Approval(None, env)] + Overlap("intent", 0, REQUESTER, Deadline(env))
  }

  lemma BrokenGateCalls(env: Env)
    ensures var calls := BrokenGate(env);
            && |calls| == 6 && calls[0] == Creation() && calls[1] == Approval(None, env)
            && calls[2..] == Overlap("intent", 0, REQUESTER, Deadline(env))
  {
    hide Creation, Approval;
  }

  lemma AfterSix(calls: seq<TimedCall>, env: Env)
    requires |calls| == 6
    ensures After(calls, 6, env) == PlayFour(After(calls, 2, env), calls[2..], env)
  {
    hide Step, After;
    NextState(calls, 2, env);
    NextState(calls, 3, env);
    NextState(calls, 4, env);
    NextState(calls, 5, env);
  }

  /** The intent is released after two calls. */
  lemma Released(env: Env)
    ensures var s := After(BrokenGate(env), 2, env);
            && NeedsApproval(s, "intent")
            && var i := s.db.intents["intent"];
               i.risk == High && i.status == ReadyToExecute && i.expiresAt == env.settings.highRiskTtl
  {
    hide Step, Inv, ApprovalObstacle, BrokenGate, Creation, Approval, After, Wrote, Created, NeedsApproval, Overlap;
    hide Fresh;
    var calls := BrokenGate(env);
    BrokenGateCalls(env);
    FreshStart(calls, env);
    NextState(calls, 0, env);
    NextState(calls, 1, env);
    CreationGoesThrough(env);
    AfterInv(calls, 1, env);
    ReleaseFollows(After(calls, 1, env), env);
  }

  lemma ReleaseFollows(s: System, env: Env)
    requires Inv(s, env) && Created(s, env)
    ensures var s' := Step(s, Approval(None, env), env).0;
            && NeedsApproval(s', "intent")
            && var i := s'.db.intents["intent"];
               i.risk == High && i.status == ReadyToExecute && i.expiresAt == env.settings.highRiskTtl
  {
    hide Step, Inv, ApprovalObstacle, Phrase;
    ApproverMayApprove(s.db.intents["intent"], None, env);
    ApprovalGoesThrough(s, Approval(None, env), env);
  }

  lemma FreshStart(calls: seq<TimedCall>, env: Env)
    ensures After(calls, 0, env) == Fresh(env.digest)
  {
  }

  /** A history from a fresh database that ends with a rejected high-risk intent ready for
      execution. */
  lemma GateCanBreak(env: Env)
    ensures var s := After(BrokenGate(env), 6, env);
            && "intent" in s.db.intents && s.db.intents["intent"].risk == High
            && s.db.intents["intent"].status == ReadyToExecute
            && "intent" in s.db.approvals && s.db.approvals["intent"].state == Refused
  {
    hide PlayFour, Inv, BrokenGate, After, Creation, Approval, Overlap, GateHolds;
    var calls := BrokenGate(env);
    BrokenGateCalls(env);
    Released(env);
    AfterInv(calls, 2, env);
    var s := After(calls, 2, env);
    OverlapBreaksGate(s, "intent", 0, REQUESTER, Deadline(env), env);
    OverlapKeepsRisk(s, env);
    AfterSix(calls, env);
  }

  lemma OverlapKeepsRisk(s: System, env: Env)
    requires Inv(s, env) && "intent" in s.db.intents
    ensures var s' := PlayFour(s, Overlap("intent", 0, REQUESTER, Deadline(env)), env);
            "intent" in s'.db.intents ==> s'.db.intents["intent"].risk == s.db.intents["intent"].risk
  {
    hide Step, Inv;
    var calls := Overlap("intent", 0, REQUESTER, Deadline(env));
    var s1 := Step(s, calls[0], env).0;
    var s2 := Step(s1, calls[1], env).0;
    var s3 := Step(s2, calls[2], env).0;
    RiskIsFixed(s, calls[0], env);
    RiskIsFixed(s1, calls[1], env);
    RiskIsFixed(s2, calls[2], env);
    RiskIsFixed(s3, calls[3], env);
  }

  lemma RiskIsFixed(s: System, t: TimedCall, env: Env)
    requires "intent" in s.db.intents
    ensures var s' := Step(s, t, env).0;
            "intent" in s'.db.intents && s'.db.intents["intent"].risk == s.db.intents["intent"].risk
  {
    hide Step, IsForeign;
    StepRows(s, t, env);
  }

  // ----------------------------------------------------------------------------
  // Two decisions at one revision
  // ----------------------------------------------------------------------------

  /** Two preflights begin at revision one. The second finishes, the intent is rejected at
      revision two, the first finishes, and the intent is approved at revision two. */
  function TwoDecisions(env: Env): seq<TimedCall>
  {
    var at := Deadline(env);
    [Creation(),
     TimedCall(BeginPreflight("intent", 0), at),
     TimedCall(BeginPreflight("intent", 1), at),
     TimedCall(FinishPreflight(1, RequiresApproval, None, ""), at),
     TimedCall(RejectIntent("intent", REQUESTER, "", Some(2), None, ""), at),
     TimedCall(FinishPreflight(0, RequiresApproval, None, ""), at),
     Approval(Some(2), env)]
  }

  /** The intent as created, but for status and revision, with both preflights' memories. */
  predicate Between(s: System, status: Status, revision: int, tasks: set<nat>, env: Env)
  {
    && (forall t :: t in tasks ==>
          && t in s.tasks && s.tasks[t].id == "intent"
          && s.tasks[t].seen.status == ReadyForApproval && s.tasks[t].seen.preflightRevision == 1)
    && "intent" in s.db.intents
    && var i := s.db.intents["intent"];
       && i.actionType == "TASK_DISPATCH" && i.risk == High && i.requestedBy == "requester"
       && i.expiresAt == env.settings.highRiskTtl && i.status == status && i.preflightRevision == revision
  }

  lemma TwoDecisionsCalls(env: Env)
    ensures var calls, at := TwoDecisions(env), Deadline(env);
            && |calls| == 7 && calls[0] == Creation()
            && calls[1] == TimedCall(BeginPreflight("intent", 0), at)
            && calls[2] == TimedCall(BeginPreflight("intent", 1), at)
            && calls[3] == TimedCall(FinishPreflight(1, RequiresApproval, None, ""), at)
            && calls[4] == TimedCall(RejectIntent("intent", REQUESTER, "", Some(2), None, ""), at)
            && calls[5] == TimedCall(FinishPreflight(0, RequiresApproval, None, ""), at)
            && calls[6] == Approval(Some(2), env)
  {
    hide Creation, Approval;
  }

  lemma BeginBetween(s: System, t: TimedCall, tasks: set<nat>, env: Env)
    requires Inv(s, env) && Between(s, ReadyForApproval, 1, tasks, env)
    requires t.call.BeginPreflight? && t.call.id == "intent" && t.at == Deadline(env)
    ensures Between(Step(s, t, env).0, ReadyForApproval, 1, tasks + {t.call.task}, env)
  {
    hide Step, Inv;
    Begins(s, t, env);
  }

  lemma FirstBegins(env: Env)
    ensures Between(After(TwoDecisions(env), 2, env), ReadyForApproval, 1, {0}, env)
  {
    hide Step, Inv, After, TwoDecisions, Creation, Approval, Between, Created, Fresh;
    var calls := TwoDecisions(env);
    TwoDecisionsCalls(env);
    FreshStart(calls, env);
    CreationGoesThrough(env);
    NextState(calls, 0, env);
    CreatedBetween(After(calls, 1, env), env);
    NextState(calls, 1, env);
    AfterInv(calls, 1, env);
    BeginBetween(After(calls, 1, env), calls[1], {}, env);
    assert {} + {0} == {0};
  }

  lemma BothBegin(env: Env)
    ensures Between(After(TwoDecisions(env), 3, env), ReadyForApproval, 1, {0, 1}, env)
  {
    hide Step, Inv, After, TwoDecisions, Creation, Approval, Between;
    var calls := TwoDecisions(env);
    TwoDecisionsCalls(env);
    FirstBegins(env);
    NextState(calls, 2, env);
    AfterInv(calls, 2, env);
    BeginBetween(After(calls, 2, env), calls[2], {0}, env);
    assert {0} + {1} == {0, 1};
  }

  lemma CreatedBetween(s: System, env: Env)
    requires Created(s, env)
    ensures Between(s, ReadyForApproval, 1, {}, env)
  {
  }

  lemma FinishBetween(s: System, t: TimedCall, status: Status, revision: int, tasks: set<nat>, env: Env)
    requires t.call.FinishPreflight? && t.call.preflight == RequiresApproval && t.call.task in tasks
    requires Between(s, status, revision, tasks, env)
    ensures Between(Step(s, t, env).0, ReadyForApproval, 2, tasks - {t.call.task}, env)
  {
    hide Step;
    FinishGoesThrough(s, t, env);
  }

  lemma RejectBetween(s: System, t: TimedCall, tasks: set<nat>, env: Env)
    requires Inv(s, env) && Between(s, ReadyForApproval, 2, tasks, env)
    requires t == TimedCall(RejectIntent("intent", REQUESTER, "", Some(2), None, ""), Deadline(env))
    ensures Step(s, t, env).1.Ok? && Between(Step(s, t, env).0, Rejected, 3, tasks, env)
  {
    hide Step, Inv;
    RejectionGoesThrough(s, t, env);
  }

  lemma ApproveBetween(s: System, env: Env)
    requires Inv(s, env) && Between(s, ReadyForApproval, 2, {}, env)
    ensures Step(s, Approval(Some(2), env), env).1.Ok?
  {
    hide Step, Inv, ApprovalObstacle, Phrase;
    ApproverMayApprove(s.db.intents["intent"], Some(2), env);
    ApprovalGoesThrough(s, Approval(Some(2), env), env);
  }

  /** A history from a fresh database in which a rejection and an approval with the same
      expected revision both succeed. */
  lemma OneDecisionCanFail(env: Env)
    ensures var calls := TwoDecisions(env);
            && Expected(calls[4].call) == Expected(calls[6].call) == Some(2)
            && calls[4].call.RejectIntent? && calls[6].call.ApproveIntent? && calls[4].call.id == calls[6].call.id
            && ReplyTo(calls, 4, env).Ok? && ReplyTo(calls, 6, env).Ok?
  {
    hide Step, Inv, After, TwoDecisions, Creation, Between;
    var calls := TwoDecisions(env);
    TwoDecisionsCalls(env);
    BothBegin(env);
    NextState(calls, 3, env);
    FinishBetween(After(calls, 3, env), calls[3], ReadyForApproval, 1, {0, 1}, env);
    assert {0, 1} - {1} == {0};
    AfterInv(calls, 4, env);
    RejectBetween(After(calls, 4, env), calls[4], {0}, env);
    NextState(calls, 4, env);
    FinishBetween(After(calls, 5, env), calls[5], Rejected, 3, {0}, env);
    assert {0} - {0} == {};
    NextState(calls, 5, env);
    AfterInv(calls, 6, env);
    ApproveBetween(After(calls, 6, env), env);
  }
}
