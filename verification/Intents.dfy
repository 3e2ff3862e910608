/** The action-intent service: intents, their approvals and the audit trail they leave. */
module Intents {
  import opened Common
  import opened Audit
  import opened Governance

  datatype Status =
    | Draft | Preflighting | PreflightFailed | ReadyForApproval | PendingApproval | Approved
    | Rejected | Expired | Cancelled | ReadyToExecute | ExecutionDisabled

  datatype PreflightResult = Pass | Fail | RequiresApproval | Blocked

  datatype Intent = Intent(
    actionType: string, targetType: string, targetId: string, requestedBy: string,
    payloadText: string, payloadHash: string, risk: Risk, status: Status, requiresApproval: bool,
    preflightRevision: int, preflight: PreflightResult, nonce: string, signature: string,
    createdAt: string, expiresAt: int, correlationId: string, authorizationId: Option<string>)

  datatype ApprovalState = Pending | Granted | Refused | Withdrawn

  datatype Decision = Approve | Reject | Cancel

  datatype Approval = Approval(
    state: ApprovalState, risk: Risk, requestedBy: string, payloadHash: string,
    confirmationPhrase: Option<string>, decisionMaker: Option<string>, decision: Option<Decision>,
    reason: Option<string>, revision: int)

  /** The three tables; an approval row belongs to at most one intent and is keyed by it. */
  datatype Database = Database(intents: map<string, Intent>, approvals: map<string, Approval>, ledger: Ledger)

  datatype Error =
    | ActionNotAllowed | AuthorizationDenied | SelfApprovalForbidden | NotFound | IntentTampered | IntentExpired
    | AlreadyResolved | RevisionConflict | ConfirmationRequired | AuditIntegrityFailure | DuplicateId
    | NotForeign

  datatype Reply = Ok(intent: Intent) | Recorded | Failed(error: Error)

  /** The columns a signature covers. */
  datatype Signed = Signed(
    id: string, actionType: string, targetType: string, targetId: string, payloadHash: string,
    requestedBy: string, createdAt: string, expiresAt: int, nonce: string)

  /** What the service runs with: the ledger's digest, the fingerprint of a payload text, the
      keyed signature, and the configured lifetimes. */
  datatype Env = Env(
    digest: Digest, fingerprint: string -> string, sign: Signed -> string, settings: Settings)

  const ALLOWED_ACTIONS := [
    "TASK_DISPATCH", "TASK_CANCEL", "PROFILE_CHANGE_APPLY", "SKILL_ASSIGNMENT_CHANGE", "SCHEDULE_CREATE",
    "SCHEDULE_UPDATE", "SCHEDULE_PAUSE", "SCHEDULE_CANCEL", "SAFETY_GATE_SELF_TEST"]

  const FORBIDDEN_ACTIONS := ["RUN_COMMAND", "EXECUTE_TOOL", "CUSTOM"]

  datatype IntentDraft = NewIntent(actionType: string, targetType: string, targetId: string, payload: Payload)

  /** What a preflight remembers of its intent while it waits for the checks. */
  datatype Remembered = Remembered(id: string, seen: Intent)

  /** Everything a call brings along; fresh identifiers are drawn by the caller. A preflight
      is two calls, because it suspends between reading the intent and writing it back; a dry
      run is the first of them. `OtherAudit` is a record written by another service. */
  datatype Call =
    | CreateIntent(id: string, draft: IntentDraft, preflight: PreflightResult, actor: Principal,
                   correlationId: string, nonce: string, eventId: string)
    | GetIntent(id: string)
    | BeginPreflight(id: string, task: nat)
    | FinishPreflight(task: nat, preflight: PreflightResult, correlation: Option<string>, eventId: string)
    | RequestApproval(id: string, actor: Principal, correlationId: string, eventId: string)
    | ApproveIntent(id: string, actor: Principal, reason: Option<string>, phrase: Option<string>,
                    expectedRevision: Option<int>, correlation: Option<string>, authorizationId: string,
                    eventId: string, readyEventId: string)
    | RejectIntent(id: string, actor: Principal, why: string, expectedRevision: Option<int>,
                   correlation: Option<string>, eventId: string)
    | CancelIntent(id: string, actor: Principal, reason: Option<string>, correlation: Option<string>,
                   eventId: string)
    | OtherAudit(entry: Entry)

  // ----------------------------------------------------------------------------
  // Audit entries
  // ----------------------------------------------------------------------------

  /** The kinds of record this service writes about an intent. */
  const OWN_ACTIONS := {
    "ACTION_INTENT_CREATED", "ACTION_INTENT_PREFLIGHTED", "APPROVAL_REQUESTED", "APPROVAL_APPROVED",
    "ACTION_READY_TO_EXECUTE", "APPROVAL_REJECTED", "ACTION_INTENT_CANCELLED"}

  /** Other services name no intent, or record something of their own about it. */
  predicate IsForeign(e: Entry)
  {
    e.intentId.None? || e.action !in OWN_ACTIONS
  }

  function PreflightText(p: PreflightResult): string
  {
    match p
    case Pass => "PASS"
    case Fail => "FAIL"
    case RequiresApproval => "REQUIRES_APPROVAL"
    case Blocked => "BLOCKED"
  }

  function RiskText(r: Risk): string
  {
    match r
    case Low => "LOW"
    case Medium => "MEDIUM"
    case High => "HIGH"
    case Critical => "CRITICAL"
  }

  function ActionEntry(eventId: string, stamp: string, actorId: string, action: string, id: string, outcome: string,
                       reason: string, correlationId: string, payloadHash: string, revision: int): Entry
  {
    var actorType := if "system" <= actorId then "SYSTEM" else "USER";
    Entry(eventId, stamp, actorId, action, id, outcome, Some(reason), Some(id), Some(payloadHash),
          Unhashed(actorType, actorId, "ACTION_INTENT", id, correlationId, revision))
  }

  const SAFETY_GATE := "system:safety_gate"

  // ----------------------------------------------------------------------------
  // What each call does, on values
  // ----------------------------------------------------------------------------

  function SignedOf(id: string, i: Intent): Signed
  {
    Signed(id, i.actionType, i.targetType, i.targetId, i.payloadHash, i.requestedBy, i.createdAt, i.expiresAt, i.nonce)
  }

  /** The stored payload matches its fingerprint, and the signature the signed columns. */
  predicate Sealed(id: string, i: Intent, env: Env)
  {
    env.fingerprint(i.payloadText) == i.payloadHash && i.signature == env.sign(SignedOf(id, i))
  }

  function Aged(i: Intent, now: int): Intent
  {
    if now > i.expiresAt && i.status !in {Expired, Rejected, Cancelled} then i.(status := Expired) else i
  }

  function InitialStatus(preflight: PreflightResult, requiresApproval: bool): Status
  {
    if preflight.Blocked? then PreflightFailed
    else if requiresApproval then ReadyForApproval
    else ReadyToExecute
  }

  function StatusAfterPreflight(status: Status, preflight: PreflightResult): Status
  {
    if preflight.Blocked? then PreflightFailed
    else if preflight.RequiresApproval? && status == PreflightFailed then ReadyForApproval
    else status
  }

  function NewIntentRow(c: Call, at: Instant, env: Env): Intent
    requires c.CreateIntent?
  {
    var risk := EvaluateRisk(c.draft.actionType, c.draft.payload);
    var policy := EvaluatePolicy(c.draft.actionType, risk, env.settings);
    var unsigned := Intent(
      c.draft.actionType, c.draft.targetType, c.draft.targetId, c.actor.id,
      c.draft.payload.text, env.fingerprint(c.draft.payload.text), risk,
      InitialStatus(c.preflight, policy.requiresApproval), policy.requiresApproval, 1, c.preflight,
      c.nonce, "", at.stamp, at.now + policy.ttlSeconds, c.correlationId, None);
    unsigned.(signature := env.sign(SignedOf(c.id, unsigned)))
  }

  function NewApprovalRow(i: Intent, settings: Settings): Approval
  {
    Approval(Pending, i.risk, i.requestedBy, i.payloadHash,
             EvaluatePolicy(i.actionType, i.risk, settings).confirmationPhrase, None, None, None, 1)
  }

  function CreationEntry(c: Call, i: Intent, stamp: string): Entry
    requires c.CreateIntent?
  {
    ActionEntry(c.eventId, stamp, c.actor.id, "ACTION_INTENT_CREATED", c.id, "SUCCESS",
                "Created intent for " + i.actionType + " with risk " + RiskText(i.risk),
                c.correlationId, i.payloadHash, 1)
  }

  ghost function Create(db: Database, c: Call, at: Instant, env: Env): (Database, Reply)
    requires c.CreateIntent?
  {
    if c.draft.actionType in FORBIDDEN_ACTIONS || c.draft.actionType !in ALLOWED_ACTIONS
    then (db, Failed(ActionNotAllowed))
    else if !MayRequest(c.actor) then (db, Failed(AuthorizationDenied))
    else if !ValidChain(db.ledger, env.digest) then (db, Failed(AuditIntegrityFailure))
    else if c.id in db.intents then (db, Failed(DuplicateId))
    else
      var i := NewIntentRow(c, at, env);
      (Database(
         db.intents[c.id := i],
         if i.requiresApproval then db.approvals[c.id := NewApprovalRow(i, env.settings)] else db.approvals,
         Append(db.ledger, CreationEntry(c, i, at.stamp), env.digest)),
       Ok(i))
  }

  /** Reading an intent checks its seal and expires it when its time has passed, even if the
      call goes on to fail. */
  function Get(db: Database, id: string, now: int, env: Env): (Database, Reply)
  {
    if id !in db.intents then (db, Failed(NotFound))
    else if !Sealed(id, db.intents[id], env) then (db, Failed(IntentTampered))
    else
      var i := Aged(db.intents[id], now);
      (db.(intents := db.intents[id := i]), Ok(i))
  }

  /** Writes back an intent and, where it has one, its approval row, with one audit entry. */
  function Commit(db: Database, id: string, i: Intent, decide: Approval -> Approval, e: Entry, h: Digest): Database
  {
    Database(
      db.intents[id := i],
      if id in db.approvals then db.approvals[id := decide(db.approvals[id])] else db.approvals,
      Append(db.ledger, e, h))
  }

  function Reopened(a: Approval): Approval
  {
    a.(state := Pending)
  }

  function Decided(state: ApprovalState, decision: Decision, actor: string, reason: string): Approval -> Approval
  {
    (a: Approval) => a.(state := state, decision := Some(decision), decisionMaker := Some(actor),
                        reason := Some(reason), revision := a.revision + 1)
  }

  function PreflightEntry(p: Remembered, result: PreflightResult, correlation: Option<string>, eventId: string,
                          stamp: string): Entry
  {
    ActionEntry(eventId, stamp, "system", "ACTION_INTENT_PREFLIGHTED", p.id, PreflightText(result),
                "Preflight status: " + PreflightText(result), OrDefault(correlation, p.seen.correlationId),
                p.seen.payloadHash, p.seen.preflightRevision + 1)
  }

  /** The row as a finishing preflight leaves it: result, revision and status come from what
      was remembered, every other column from the table. */
  function Preflighted(i: Intent, seen: Intent, result: PreflightResult): Intent
  {
    i.(preflight := result, preflightRevision := seen.preflightRevision + 1,
       status := StatusAfterPreflight(seen.status, result))
  }

  /** The second half of a preflight writes without looking at the table again. */
  function Finish(db: Database, p: Remembered, result: PreflightResult, correlation: Option<string>,
                  eventId: string, stamp: string, h: Digest): (Database, Reply)
  {
    var i := Preflighted(if p.id in db.intents then db.intents[p.id] else p.seen, p.seen, result);
    (db.(intents := if p.id in db.intents then db.intents[p.id := i] else db.intents,
         ledger := Append(db.ledger, PreflightEntry(p, result, correlation, eventId, stamp), h)),
     Ok(i))
  }

  function RequestEntry(c: Call, i: Intent, stamp: string): Entry
    requires c.RequestApproval?
  {
    ActionEntry(c.eventId, stamp, c.actor.id, "APPROVAL_REQUESTED", c.id, "SUCCESS",
                "Operator submitted intent for human approval", c.correlationId, i.payloadHash, 1)
  }

  function Request(db: Database, c: Call, at: Instant, env: Env): (Database, Reply)
    requires c.RequestApproval?
  {
    var (db1, r) := Get(db, c.id, at.now, env);
    if !r.Ok? then (db1, r)
    else if r.intent.status in {Approved, Rejected, Cancelled, Expired} then (db1, Failed(AlreadyResolved))
    else
      var i := r.intent.(status := PendingApproval);
      (Commit(db1, c.id, i, Reopened, RequestEntry(c, i, at.stamp), env.digest), Ok(i))
  }

  /** The checks an approval passes before anything is written, in order. */
  function ApprovalObstacle(i: Intent, c: Call, settings: Settings): Option<Error>
    requires c.ApproveIntent?
  {
    if i.status == Expired then Some(IntentExpired)
    else if i.status in {Approved, Rejected, ReadyToExecute} then Some(AlreadyResolved)
    else if c.expectedRevision.Some? && i.preflightRevision != c.expectedRevision.value then Some(RevisionConflict)
    else if !MayApprove(c.actor) then Some(AuthorizationDenied)
    else if IsSelfApproval(c.actor, i.requestedBy, i.risk) then Some(SelfApprovalForbidden)
    else if !Confirmed(EvaluatePolicy(i.actionType, i.risk, settings), c.phrase) then Some(ConfirmationRequired)
    else None
  }

  const APPROVED_REASON := "Approved by operator"
  const READY_REASON := "Intent is approved and ready. Production execution remains disabled."
  const CANCELLED_REASON := "Cancelled by operator"

  function ApprovalEntry(c: Call, i: Intent, stamp: string): Entry
    requires c.ApproveIntent?
  {
    ActionEntry(c.eventId, stamp, c.actor.id, "APPROVAL_APPROVED", c.id, "SUCCESS",
                OrDefault(c.reason, APPROVED_REASON), OrDefault(c.correlation, i.correlationId),
                i.payloadHash, i.preflightRevision + 1)
  }

  function ReadyEntry(c: Call, i: Intent, stamp: string): Entry
    requires c.ApproveIntent?
  {
    ActionEntry(c.readyEventId, stamp, SAFETY_GATE, "ACTION_READY_TO_EXECUTE", c.id, "SUCCESS", READY_REASON,
                OrDefault(c.correlation, i.correlationId), i.payloadHash, i.preflightRevision + 1)
  }

  ghost function Authorize(db: Database, c: Call, at: Instant, env: Env): (Database, Reply)
    requires c.ApproveIntent?
  {
    var (db1, r) := Get(db, c.id, at.now, env);
    if !r.Ok? then (db1, r)
    else
      var obstacle := ApprovalObstacle(r.intent, c, env.settings);
      if obstacle.Some? then (db1, Failed(obstacle.value))
      else if !ValidChain(db1.ledger, env.digest) then (db1, Failed(AuditIntegrityFailure))
      else
        var i := r.intent.(status := ReadyToExecute, preflightRevision := r.intent.preflightRevision + 1,
                           authorizationId := Some(c.authorizationId));
        var decide := Decided(Granted, Approve, c.actor.id, OrDefault(c.reason, APPROVED_REASON));
        var db2 := Commit(db1, c.id, i, decide, ApprovalEntry(c, r.intent, at.stamp), env.digest);
        (db2.(ledger := Append(db2.ledger, ReadyEntry(c, r.intent, at.stamp), env.digest)), Ok(i))
  }

  function RejectionEntry(c: Call, i: Intent, stamp: string): Entry
    requires c.RejectIntent?
  {
    ActionEntry(c.eventId, stamp, c.actor.id, "APPROVAL_REJECTED", c.id, "DENIED", c.why,
                OrDefault(c.correlation, i.correlationId), i.payloadHash, i.preflightRevision)
  }

  function Refuse(db: Database, c: Call, at: Instant, env: Env): (Database, Reply)
    requires c.RejectIntent?
  {
    var (db1, r) := Get(db, c.id, at.now, env);
    if !r.Ok? then (db1, r)
    else if r.intent.status in {Approved, Rejected, ReadyToExecute} then (db1, Failed(AlreadyResolved))
    else if c.expectedRevision.Some? && r.intent.preflightRevision != c.expectedRevision.value
    then (db1, Failed(RevisionConflict))
    else
      var i := r.intent.(status := Rejected, preflightRevision := r.intent.preflightRevision + 1);
      var decide := Decided(Refused, Reject, c.actor.id, c.why);
      (Commit(db1, c.id, i, decide, RejectionEntry(c, i, at.stamp), env.digest), Ok(i))
  }

  function CancellationEntry(c: Call, i: Intent, stamp: string): Entry
    requires c.CancelIntent?
  {
    ActionEntry(c.eventId, stamp, c.actor.id, "ACTION_INTENT_CANCELLED", c.id, "SUCCESS",
                OrDefault(c.reason, CANCELLED_REASON), OrDefault(c.correlation, i.correlationId),
                i.payloadHash, i.preflightRevision)
  }

  function Withdraw(db: Database, c: Call, at: Instant, env: Env): (Database, Reply)
    requires c.CancelIntent?
  {
    var (db1, r) := Get(db, c.id, at.now, env);
    if !r.Ok? then (db1, r)
    else if !MayCancel(c.actor, r.intent.requestedBy) then (db1, Failed(AuthorizationDenied))
    else if r.intent.status in {Approved, ReadyToExecute, Rejected, Expired} then (db1, Failed(AlreadyResolved))
    else
      var i := r.intent.(status := Cancelled, preflightRevision := r.intent.preflightRevision + 1);
      var decide := Decided(Withdrawn, Cancel, c.actor.id, OrDefault(c.reason, CANCELLED_REASON));
      (Commit(db1, c.id, i, decide, CancellationEntry(c, i, at.stamp), env.digest), Ok(i))
  }

  /** `tasks` are the preflights that have begun and not finished. */
  ghost function Perform(db: Database, tasks: map<nat, Remembered>, c: Call, at: Instant, env: Env)
    : (Database, Reply)
  {
    match c
    case CreateIntent(_, _, _, _, _, _, _) => Create(db, c, at, env)
    case GetIntent(id) => Get(db, id, at.now, env)
    case BeginPreflight(id, _) => Get(db, id, at.now, env)
    case FinishPreflight(task, result, correlation, eventId) =>
      if task in tasks then Finish(db, tasks[task], result, correlation, eventId, at.stamp, env.digest)
      else (db, Failed(NotFound))
    case RequestApproval(_, _, _, _) => Request(db, c, at, env)
    case ApproveIntent(_, _, _, _, _, _, _, _, _) => Authorize(db, c, at, env)
    case RejectIntent(_, _, _, _, _, _) => Refuse(db, c, at, env)
    case CancelIntent(_, _, _, _, _) => Withdraw(db, c, at, env)
    case OtherAudit(e) =>
      if IsForeign(e) then (db.(ledger := Append(db.ledger, e, env.digest)), Recorded)
      else (db, Failed(NotForeign))
  }
}
