/** The service object over the control database, one method per operation. Each
    method's transaction either commits every write or leaves the tables as the
    preceding read found them. */
module IntentService {
  import opened Common
  import opened Audit
  import opened Governance
  import opened Intents

  class ActionIntentService {
    const env: Env
    var intents: map<string, Intent>
    var approvals: map<string, Approval>
    var ledger: Ledger

    function Tables(): Database
      reads this
    {
      Database(intents, approvals, ledger)
    }

    /** A freshly migrated database: no intents, and a ledger of just the genesis record. */
    constructor (env: Env)
      ensures this.env == env
      ensures Tables() == Database(map[], map[], Genesis(env.digest))
    {
      this.env := env;
      intents, approvals := map[], map[];
      ledger := Genesis(env.digest);
    }

    method DecideApproval(id: string, state: ApprovalState, decision: Decision, actor: string, reason: string)
      modifies this`approvals
      ensures approvals == if id in old(approvals)
                           then old(approvals)[id := Decided(state, decision, actor, reason)(old(approvals)[id])]
                           else old(approvals)
    {
      if id in approvals {
        var a := approvals[id];
        approvals := approvals[id := a.(state := state, decision := Some(decision), decisionMaker := Some(actor),
                                        reason := Some(reason), revision := a.revision + 1)];
      }
    }

    method CreateIntent(c: Call, at: Instant) returns (r: Reply)
      requires c.CreateIntent?
      modifies this
      ensures (Tables(), r) == Create(old(Tables()), c, at, env)
    {
      hide ValidChain, MayRequest, EvaluateRisk, EvaluatePolicy, Append, CreationEntry;
      var draft := c.draft;
      if draft.actionType in FORBIDDEN_ACTIONS || draft.actionType !in ALLOWED_ACTIONS {
        return Failed(ActionNotAllowed);
      }
      if !MayRequest(c.actor) {
        return Failed(AuthorizationDenied);
      }
      var payloadHash := env.fingerprint(draft.payload.text);
      var risk := EvaluateRisk(draft.actionType, draft.payload);
      var policy := EvaluatePolicy(draft.actionType, risk, env.settings);
      var expiresAt := at.now + policy.ttlSeconds;
      var signature := env.sign(Signed(c.id, draft.actionType, draft.targetType, draft.targetId, payloadHash,
                                       c.actor.id, at.stamp, expiresAt, c.nonce));
      var status := PreflightFailed;
      if !c.preflight.Blocked? {
        status := if policy.requiresApproval then ReadyForApproval else ReadyToExecute;
      }
      var verdict := VerifyChain(ledger, env.digest);
      if !verdict.Intact? {
        return Failed(AuditIntegrityFailure);
      }
      if c.id in intents {
        return Failed(DuplicateId);
      }
      var i := Intent(draft.actionType, draft.targetType, draft.targetId, c.actor.id, draft.payload.text, payloadHash,
                      risk, status, policy.requiresApproval, 1, c.preflight, c.nonce, signature, at.stamp, expiresAt,
                      c.correlationId, None);
      intents := intents[c.id := i];
      if policy.requiresApproval {
        approvals := approvals[c.id := Approval(Pending, risk, c.actor.id, payloadHash, policy.confirmationPhrase,
                                                None, None, None, 1)];
      }
      ledger := AppendRecord(ledger, CreationEntry(c, i, at.stamp), env.digest);
      r := Ok(i);
    }

    /** An intent past its expiry is never handed out as ready to execute, and one whose seal
        is broken is not handed out at all. */
    method GetIntent(id: string, at: Instant) returns (r: Reply)
      modifies this`intents
      ensures (Tables(), r) == Get(old(Tables()), id, at.now, env)
      ensures r.Ok? && at.now > r.intent.expiresAt ==> r.intent.status in {Expired, Rejected, Cancelled}
      ensures r.Ok? ==> Sealed(id, r.intent, env)
    {
      if id !in intents {
        return Failed(NotFound);
      }
      var i := intents[id];
      if env.fingerprint(i.payloadText) != i.payloadHash {
        return Failed(IntentTampered);
      }
      var expected := env.sign(SignedOf(id, i));
      if i.signature != expected {
        return Failed(IntentTampered);
      }
      if at.now > i.expiresAt && i.status !in {Expired, Rejected, Cancelled} {
        i := i.(status := Expired);
      }
      intents := intents[id := i];
      r := Ok(i);
    }

    /** A preflight up to where it suspends: it reads the intent and remembers it. */
    method BeginPreflight(id: string, at: Instant) returns (r: Reply, p: Option<Remembered>)
      modifies this`intents
      ensures (Tables(), r) == Get(old(Tables()), id, at.now, env)
      ensures p == if r.Ok? then Some(Remembered(id, r.intent)) else None
    {
      r := GetIntent(id, at);
      p := if r.Ok? then Some(Remembered(id, r.intent)) else None;
    }

    /** A preflight from where it resumes: it writes what it remembered, plus the result. */
    method FinishPreflight(p: Remembered, result: PreflightResult, correlation: Option<string>, eventId: string,
                           at: Instant)
      returns (r: Reply)
      modifies this
      ensures (Tables(), r) == Finish(old(Tables()), p, result, correlation, eventId, at.stamp, env.digest)
    {
      hide Append, PreflightEntry;
      var newRevision := p.seen.preflightRevision + 1;
      var newStatus := p.seen.status;
      if result.Blocked? {
        newStatus := PreflightFailed;
      } else if result.RequiresApproval? {
        if p.seen.status == PreflightFailed {
          newStatus := ReadyForApproval;
        }
      }
      var i := if p.id in intents then intents[p.id] else p.seen;
      i := i.(preflight := result, preflightRevision := newRevision, status := newStatus);
      if p.id in intents {
        intents := intents[p.id := i];
      }
      ledger := AppendRecord(ledger, PreflightEntry(p, result, correlation, eventId, at.stamp), env.digest);
      r := Ok(i);
    }

    method RequestApproval(c: Call, at: Instant) returns (r: Reply)
      requires c.RequestApproval?
      modifies this
      ensures (Tables(), r) == Request(old(Tables()), c, at, env)
    {
      hide Append, RequestEntry, Sealed;
      r := GetIntent(c.id, at);
      if !r.Ok? {
        return;
      }
      if r.intent.status in {Approved, Rejected, Cancelled, Expired} {
        return Failed(AlreadyResolved);
      }
      var i := r.intent.(status := PendingApproval);
      intents := intents[c.id := i];
      if c.id in approvals {
        approvals := approvals[c.id := approvals[c.id].(state := Pending)];
      }
      ledger := AppendRecord(ledger, RequestEntry(c, i, at.stamp), env.digest);
      r := Ok(i);
    }

    method ApproveIntent(c: Call, at: Instant) returns (r: Reply)
      requires c.ApproveIntent?
      modifies this
      ensures (Tables(), r) == Authorize(old(Tables()), c, at, env)
    {
      hide Append, ValidChain, MayApprove, Confirmed, EvaluatePolicy, OrDefault, IsSelfApproval, Sealed;
      hide ApprovalEntry, ReadyEntry;
      r := GetIntent(c.id, at);
      if !r.Ok? {
        return;
      }
      var i := r.intent;
      if i.status == Expired {
        return Failed(IntentExpired);
      }
      if i.status in {Approved, Rejected, ReadyToExecute} {
        return Failed(AlreadyResolved);
      }
      if c.expectedRevision.Some? && i.preflightRevision != c.expectedRevision.value {
        return Failed(RevisionConflict);
      }
      if !MayApprove(c.actor) {
        return Failed(AuthorizationDenied);
      }
      if IsSelfApproval(c.actor, i.requestedBy, i.risk) {
        return Failed(SelfApprovalForbidden);
      }
      if !Confirmed(EvaluatePolicy(i.actionType, i.risk, env.settings), c.phrase) {
        return Failed(ConfirmationRequired);
      }
      var verdict := VerifyChain(ledger, env.digest);
      if !verdict.Intact? {
        return Failed(AuditIntegrityFailure);
      }
      var i' := i.(status := ReadyToExecute, preflightRevision := i.preflightRevision + 1,
                   authorizationId := Some(c.authorizationId));
      intents := intents[c.id := i'];
      DecideApproval(c.id, Granted, Approve, c.actor.id, OrDefault(c.reason, APPROVED_REASON));
      ledger := AppendRecord(ledger, ApprovalEntry(c, i, at.stamp), env.digest);
      ledger := AppendRecord(ledger, ReadyEntry(c, i, at.stamp), env.digest);
      r := Ok(i');
    }

    method RejectIntent(c: Call, at: Instant) returns (r: Reply)
      requires c.RejectIntent?
      modifies this
      ensures (Tables(), r) == Refuse(old(Tables()), c, at, env)
    {
      hide Append, RejectionEntry, Sealed;
      r := GetIntent(c.id, at);
      if !r.Ok? {
        return;
      }
      if r.intent.status in {Approved, Rejected, ReadyToExecute} {
        return Failed(AlreadyResolved);
      }
      if c.expectedRevision.Some? && r.intent.preflightRevision != c.expectedRevision.value {
        return Failed(RevisionConflict);
      }
      var i := r.intent.(status := Rejected, preflightRevision := r.intent.preflightRevision + 1);
      intents := intents[c.id := i];
      DecideApproval(c.id, Refused, Reject, c.actor.id, c.why);
      ledger := AppendRecord(ledger, RejectionEntry(c, i, at.stamp), env.digest);
      r := Ok(i);
    }

    method CancelIntent(c: Call, at: Instant) returns (r: Reply)
      requires c.CancelIntent?
      modifies this
      ensures (Tables(), r) == Withdraw(old(Tables()), c, at, env)
    {
      hide Append, CancellationEntry, OrDefault, Sealed;
      r := GetIntent(c.id, at);
      if !r.Ok? {
        return;
      }
      if !MayCancel(c.actor, r.intent.requestedBy) {
        return Failed(AuthorizationDenied);
      }
      if r.intent.status in {Approved, ReadyToExecute, Rejected, Expired} {
        return Failed(AlreadyResolved);
      }
      var i := r.intent.(status := Cancelled, preflightRevision := r.intent.preflightRevision + 1);
      intents := intents[c.id := i];
      DecideApproval(c.id, Withdrawn, Cancel, c.actor.id, OrDefault(c.reason, CANCELLED_REASON));
      ledger := AppendRecord(ledger, CancellationEntry(c, i, at.stamp), env.digest);
      r := Ok(i);
    }
  }
}
