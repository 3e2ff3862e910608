/** What every run of intent operations keeps, from a freshly migrated database on, however
    the halves of preflights interleave with the other calls. */
module IntentRuns {
  import opened Common
  import opened Audit
  import opened Governance
  import opened Intents

  /** The tables, a note of who last decided each intent and with what authority, and the
      preflights that are waiting for their checks. */
  datatype System = System(db: Database, deciders: map<string, Principal>, tasks: map<nat, Remembered>)

  datatype TimedCall = TimedCall(call: Call, at: Instant)

  ghost function Step(s: System, t: TimedCall, env: Env): (System, Reply)
  {
    var (db, r) := Perform(s.db, s.tasks, t.call, t.at, env);
    (System(db, DecidersAfter(s, t.call, r), TasksAfter(s, t.call, r)), r)
  }

  function DecidersAfter(s: System, c: Call, r: Reply): map<string, Principal>
  {
    if r.Ok? && (c.ApproveIntent? || c.RejectIntent? || c.CancelIntent?) then s.deciders[c.id := c.actor]
    else s.deciders
  }

  function TasksAfter(s: System, c: Call, r: Reply): map<nat, Remembered>
  {
    match c
    case BeginPreflight(id, task) => if r.Ok? then s.tasks[task := Remembered(id, r.intent)] else s.tasks
    case FinishPreflight(task, _, _, _) => s.tasks - {task}
    case _ => s.tasks
  }

  function Fresh(h: Digest): System
  {
    System(Database(map[], map[], Genesis(h)), map[], map[])
  }

  // ----------------------------------------------------------------------------
  // The invariant
  // ----------------------------------------------------------------------------

  const REVISING := {"ACTION_INTENT_PREFLIGHTED", "APPROVAL_APPROVED", "APPROVAL_REJECTED", "ACTION_INTENT_CANCELLED"}
  const DECIDING := {"APPROVAL_APPROVED", "APPROVAL_REJECTED", "ACTION_INTENT_CANCELLED"}

  /** A record of this service about the intent. */
  predicate Concerns(e: Entry, id: string)
  {
    e.intentId == Some(id) && e.action in OWN_ACTIONS
  }

  /** How many audit records of the given kinds an intent has. */
  function CountFor(ledger: Ledger, id: string, actions: set<string>): nat
  {
    if ledger == [] then 0
    else
      var last := ledger[|ledger| - 1].entry;
      CountFor(ledger[..|ledger| - 1], id, actions) + if Concerns(last, id) && last.action in actions then 1 else 0
  }

  /** At `j` the ledger records the approval of `id` by `approver`, directly followed by the
      release for execution; of this service's records about `id`, only preflights come after. */
  ghost predicate ApprovalRecorded(ledger: Ledger, j: nat, id: string, approver: string, payloadHash: string)
  {
    && j + 1 < |ledger|
    && ledger[j].entry.action == "APPROVAL_APPROVED" && ledger[j].entry.outcome == "SUCCESS"
    && ledger[j].entry.actorId == approver
    && Concerns(ledger[j].entry, id) && ledger[j].entry.payloadHash == Some(payloadHash)
    && ledger[j + 1].entry.action == "ACTION_READY_TO_EXECUTE" && ledger[j + 1].entry.actorId == SAFETY_GATE
    && Concerns(ledger[j + 1].entry, id) && ledger[j + 1].entry.payloadHash == Some(payloadHash)
    && (forall k :: j + 1 < k < |ledger| && Concerns(ledger[k].entry, id) ==>
          ledger[k].entry.action == "ACTION_INTENT_PREFLIGHTED")
  }

  /** Whoever decided the intent last had the authority to approve it, was not its requester
      where the risk is high, and left the records of it. */
  ghost predicate ProperlyApproved(s: System, id: string)
    requires id in s.db.intents
  {
    var i := s.db.intents[id];
    && id in s.db.approvals && id in s.deciders
    && var a, d := s.db.approvals[id], s.deciders[id];
       && a.state == Granted && a.decision == Some(Approve) && a.decisionMaker == Some(d.id)
       && MayApprove(d) && !IsSelfApproval(d, i.requestedBy, i.risk)
       && exists j: nat :: ApprovalRecorded(s.db.ledger, j, id, d.id, i.payloadHash)
  }

  ghost predicate RowOk(s: System, id: string)
    requires id in s.db.intents && id in s.db.approvals
  {
    && s.db.approvals[id].revision == 1 + CountFor(s.db.ledger, id, DECIDING)
    && s.db.approvals[id].payloadHash == s.db.intents[id].payloadHash
    && (s.db.approvals[id].state == Granted ==> ProperlyApproved(s, id))
  }

  ghost predicate IntentOk(s: System, id: string, env: Env)
    requires id in s.db.intents
  {
    var i := s.db.intents[id];
    && Sealed(id, i, env)
    && (i.requiresApproval <==> id in s.db.approvals)
    && (i.requiresApproval <==> i.risk != Low)
    && i.preflightRevision <= 1 + CountFor(s.db.ledger, id, REVISING)
    && (id in s.db.approvals ==> RowOk(s, id))
  }

  predicate TaskOk(s: System, p: Remembered)
  {
    && p.id in s.db.intents
    && p.seen.payloadHash == s.db.intents[p.id].payloadHash
    && p.seen.preflightRevision <= 1 + CountFor(s.db.ledger, p.id, REVISING)
  }

  predicate Known(s: System, e: Entry)
  {
    e.intentId.Some? && e.action in OWN_ACTIONS ==> e.intentId.value in s.db.intents
  }

  ghost predicate Inv(s: System, env: Env)
  {
    && ValidChain(s.db.ledger, env.digest)
    && s.db.approvals.Keys <= s.db.intents.Keys
    && (forall k :: 0 <= k < |s.db.ledger| ==> Known(s, s.db.ledger[k].entry))
    && (forall id :: id in s.db.intents ==> IntentOk(s, id, env))
    && (forall t :: t in s.tasks ==> TaskOk(s, s.tasks[t]))
  }

  // ----------------------------------------------------------------------------
  // Ledger bookkeeping
  // ----------------------------------------------------------------------------

  lemma AppendShape(ledger: Ledger, e: Entry, h: Digest)
    ensures var l := Append(ledger, e, h);
            |l| == |ledger| + 1 && l[..|ledger|] == ledger && l[|ledger|].entry == e
  {
  }

  lemma CountAppend(ledger: Ledger, e: Entry, h: Digest, id: string, actions: set<string>)
    ensures CountFor(Append(ledger, e, h), id, actions)
         == CountFor(ledger, id, actions) + if Concerns(e, id) && e.action in actions then 1 else 0
  {
    AppendShape(ledger, e, h);
  }

  lemma {:induction false} CountUnmentioned(ledger: Ledger, id: string, actions: set<string>)
    requires forall k :: 0 <= k < |ledger| ==> !Concerns(ledger[k].entry, id)
    ensures CountFor(ledger, id, actions) == 0
  {
    if ledger != [] {
      CountUnmentioned(ledger[..|ledger| - 1], id, actions);
    }
  }

  lemma RecordedAppend(ledger: Ledger, e: Entry, h: Digest, j: nat, id: string, approver: string, payloadHash: string)
    requires ApprovalRecorded(ledger, j, id, approver, payloadHash)
    requires Concerns(e, id) ==> e.action == "ACTION_INTENT_PREFLIGHTED"
    ensures ApprovalRecorded(Append(ledger, e, h), j, id, approver, payloadHash)
  {
    hide CanonicalOf, Concerns;
    var l := Append(ledger, e, h);
    AppendShape(ledger, e, h);
    assert forall k :: 0 <= k < |ledger| ==> l[k] == ledger[k];
  }

  /** An approval row and its decider carry over any record but a decision or a request. */
  lemma RowCarriesOver(s: System, s': System, id: string, e: Entry, env: Env)
    requires id in s.db.intents && id in s.db.approvals && RowOk(s, id)
    requires id in s'.db.intents && id in s'.db.approvals && s'.db.approvals[id] == s.db.approvals[id]
    requires s'.db.intents[id].payloadHash == s.db.intents[id].payloadHash
    requires s'.db.intents[id].requestedBy == s.db.intents[id].requestedBy
    requires s'.db.intents[id].risk == s.db.intents[id].risk
    requires id in s.deciders ==> id in s'.deciders && s'.deciders[id] == s.deciders[id]
    requires s'.db.ledger == Append(s.db.ledger, e, env.digest)
    requires Concerns(e, id) ==> e.action == "ACTION_INTENT_PREFLIGHTED"
    ensures RowOk(s', id)
  {
    hide Append, MayApprove, IsSelfApproval, CountFor, ApprovalRecorded;
    CountAppend(s.db.ledger, e, env.digest, id, DECIDING);
    if s.db.approvals[id].state == Granted {
      var d, hash := s.deciders[id].id, s.db.intents[id].payloadHash;
      var j: nat :| ApprovalRecorded(s.db.ledger, j, id, d, hash);
      RecordedAppend(s.db.ledger, e, env.digest, j, id, d, hash);
    }
  }

  /** An intent whose rows and decider are unchanged is unaffected by records about others. */
  lemma Unaffected(s: System, s': System, id: string, e: Entry, env: Env)
    requires id in s.db.intents && IntentOk(s, id, env) && !Concerns(e, id)
    requires s'.db.ledger == Append(s.db.ledger, e, env.digest)
    requires id in s'.db.intents && s'.db.intents[id] == s.db.intents[id]
    requires id in s'.db.approvals <==> id in s.db.approvals
    requires id in s.db.approvals ==> s'.db.approvals[id] == s.db.approvals[id]
    requires id in s.deciders ==> id in s'.deciders && s'.deciders[id] == s.deciders[id]
    ensures IntentOk(s', id, env)
  {
    hide Append, RowOk, Sealed, CountFor;
    CountAppend(s.db.ledger, e, env.digest, id, REVISING);
    if id in s.db.approvals {
      RowCarriesOver(s, s', id, e, env);
    }
  }

  lemma TasksCarryOver(s: System, s': System, e: Entry, env: Env)
    requires forall t :: t in s.tasks ==> TaskOk(s, s.tasks[t])
    requires s'.db.ledger == Append(s.db.ledger, e, env.digest)
    requires forall id :: id in s.db.intents ==>
               id in s'.db.intents && s'.db.intents[id].payloadHash == s.db.intents[id].payloadHash
    requires s'.tasks.Keys <= s.tasks.Keys && forall t :: t in s'.tasks ==> s'.tasks[t] == s.tasks[t]
    ensures forall t :: t in s'.tasks ==> TaskOk(s', s'.tasks[t])
  {
    hide Append, CountFor;
    forall t | t in s'.tasks ensures TaskOk(s', s'.tasks[t]) {
      assert TaskOk(s, s.tasks[t]);
      CountAppend(s.db.ledger, e, env.digest, s.tasks[t].id, REVISING);
    }
  }

  /** Only `id` differs between the two systems, besides the ledger and finished tasks. */
  ghost predicate OnlyTouches(s: System, s': System, id: string)
  {
    && id in s'.db.intents && s'.db.intents == s.db.intents[id := s'.db.intents[id]]
    && (id in s.db.intents ==> s'.db.intents[id].payloadHash == s.db.intents[id].payloadHash)
    && s'.db.approvals.Keys <= s'.db.intents.Keys
    && (forall d :: d != id ==> (d in s'.db.approvals <==> d in s.db.approvals))
    && (forall d :: d != id && d in s.db.approvals ==> s'.db.approvals[d] == s.db.approvals[d])
    && (forall d :: d != id && d in s.deciders ==> d in s'.deciders && s'.deciders[d] == s.deciders[d])
    && s'.tasks.Keys <= s.tasks.Keys && (forall t :: t in s'.tasks ==> s'.tasks[t] == s.tasks[t])
  }

  /** One audited write to `id` keeps the invariant if it keeps `id` itself in order. */
  lemma WriteKeepsInv(s: System, s': System, id: string, e: Entry, env: Env)
    requires Inv(s, env) && e.intentId == Some(id)
    requires s'.db.ledger == Append(s.db.ledger, e, env.digest)
    requires OnlyTouches(s, s', id) && IntentOk(s', id, env)
    ensures Inv(s', env)
  {
    hide Append, IntentOk, ValidChain, TaskOk;
    ChainNonempty(s, env);
    AppendValid(s.db.ledger, e, env.digest);
    AppendShape(s.db.ledger, e, env.digest);
    TasksCarryOver(s, s', e, env);
    forall d | d in s'.db.intents ensures IntentOk(s', d, env) {
      if d != id {
        Unaffected(s, s', d, e, env);
      }
    }
    forall k | 0 <= k < |s'.db.ledger| ensures Known(s', s'.db.ledger[k].entry) {
      if k < |s.db.ledger| {
        assert s'.db.ledger[k] == s.db.ledger[k] && Known(s, s.db.ledger[k].entry);
      }
    }
  }

  lemma ChainNonempty(s: System, env: Env)
    requires ValidChain(s.db.ledger, env.digest)
    ensures s.db.ledger != []
  {
  }

  // ----------------------------------------------------------------------------
  // Preservation, call by call
  // ----------------------------------------------------------------------------

  lemma FreshInv(env: Env)
    ensures Inv(Fresh(env.digest), env)
  {
    hide CanonicalOf;
    GenesisValid(env.digest);
  }

  lemma GetKeepsInv(s: System, id: string, now: int, env: Env)
    requires Inv(s, env)
    ensures Inv(s.(db := Get(s.db, id, now, env).0), env)
  {
    hide ValidChain, CountFor, Sealed, MayApprove, ApprovalRecorded;
    var s' := s.(db := Get(s.db, id, now, env).0);
    forall d | d in s'.db.intents ensures IntentOk(s', d, env) {
      assert IntentOk(s, d, env);
      SealUntouched(d, s.db.intents[d], s'.db.intents[d], env);
    }
    forall t | t in s'.tasks ensures TaskOk(s', s'.tasks[t]) {
      assert TaskOk(s, s.tasks[t]);
    }
    forall k | 0 <= k < |s'.db.ledger| ensures Known(s', s'.db.ledger[k].entry) {
      assert Known(s, s.db.ledger[k].entry);
    }
  }

  /** No operation writes a sealed column of an existing row. */
  lemma SealUntouched(id: string, i: Intent, i': Intent, env: Env)
    requires i' == i.(status := i'.status, preflight := i'.preflight, preflightRevision := i'.preflightRevision,
                      authorizationId := i'.authorizationId)
    ensures Sealed(id, i', env) <==> Sealed(id, i, env)
  {
  }

  lemma GetReplies(db: Database, id: string, now: int, env: Env)
    ensures var (db', r) := Get(db, id, now, env);
            && !r.Recorded? && (r.Failed? ==> db' == db)
            && (r.Ok? ==> id in db.intents && db' == db.(intents := db.intents[id := r.intent])
                          && r.intent == Aged(db.intents[id], now))
  {
    hide Sealed, Aged;
    if id in db.intents && !Sealed(id, db.intents[id], env) {
      return;
    }
  }

  /** Remembering what was just read. */
  lemma TaskAddedKeepsInv(s: System, s': System, id: string, task: nat, env: Env)
    requires Inv(s, env) && id in s.db.intents
    requires s' == s.(tasks := s.tasks[task := Remembered(id, s.db.intents[id])])
    ensures Inv(s', env)
  {
    hide ValidChain, CountFor, Sealed, RowOk;
    forall d | d in s'.db.intents ensures IntentOk(s', d, env) {
      assert IntentOk(s, d, env);
      if d in s.db.approvals {
        SameRow(s, s', d);
      }
    }
    forall t | t in s'.tasks ensures TaskOk(s', s'.tasks[t]) {
      assert IntentOk(s, id, env);
      assert t != task ==> TaskOk(s, s.tasks[t]);
    }
    forall k | 0 <= k < |s'.db.ledger| ensures Known(s', s'.db.ledger[k].entry) {
      assert Known(s, s.db.ledger[k].entry);
    }
  }

  lemma BeginKeepsInv(s: System, t: TimedCall, env: Env)
    requires Inv(s, env) && t.call.BeginPreflight?
    ensures Inv(Step(s, t, env).0, env)
  {
    hide Inv, Get;
    GetKeepsInv(s, t.call.id, t.at.now, env);
    GetReplies(s.db, t.call.id, t.at.now, env);
    var (db, r) := Get(s.db, t.call.id, t.at.now, env);
    if r.Ok? {
      TaskAddedKeepsInv(s.(db := db), Step(s, t, env).0, t.call.id, t.call.task, env);
    }
  }

  lemma SameRow(s: System, s': System, id: string)
    requires s'.db == s.db && s'.deciders == s.deciders
    requires id in s.db.intents && id in s.db.approvals && RowOk(s, id)
    ensures RowOk(s', id)
  {
    hide CountFor, MayApprove, ApprovalRecorded;
  }

  lemma CreateKeepsInv(s: System, c: Call, at: Instant, env: Env)
    requires Inv(s, env) && c.CreateIntent?
    ensures Inv(s.(db := Create(s.db, c, at, env).0), env)
  {
    hide Append, ValidChain, EvaluateRisk, MayRequest, CountFor;
    var (db, r) := Create(s.db, c, at, env);
    var s' := s.(db := db);
    if r.Failed? {
      return;
    }
    var e := CreationEntry(c, r.intent, at.stamp);
    forall k | 0 <= k < |s.db.ledger| ensures !Concerns(s.db.ledger[k].entry, c.id) {
      assert Known(s, s.db.ledger[k].entry);
    }
    CountUnmentioned(s.db.ledger, c.id, REVISING);
    CountUnmentioned(s.db.ledger, c.id, DECIDING);
    CountAppend(s.db.ledger, e, env.digest, c.id, REVISING);
    CountAppend(s.db.ledger, e, env.digest, c.id, DECIDING);
    assert IntentOk(s', c.id, env);
    WriteKeepsInv(s, s', c.id, e, env);
  }

  lemma FinishedOk(s: System, s': System, p: Remembered, result: PreflightResult, e: Entry, env: Env)
    requires p.id in s.db.intents && IntentOk(s, p.id, env) && TaskOk(s, p)
    requires e.intentId == Some(p.id) && e.action == "ACTION_INTENT_PREFLIGHTED"
    requires s'.db.intents == s.db.intents[p.id := Preflighted(s.db.intents[p.id], p.seen, result)]
    requires s'.db.approvals == s.db.approvals && s'.deciders == s.deciders
    requires s'.db.ledger == Append(s.db.ledger, e, env.digest)
    ensures IntentOk(s', p.id, env)
  {
    hide Append, CountFor, Sealed, RowOk, StatusAfterPreflight;
    SealUntouched(p.id, s.db.intents[p.id], s'.db.intents[p.id], env);
    CountAppend(s.db.ledger, e, env.digest, p.id, REVISING);
    if p.id in s.db.approvals {
      RowCarriesOver(s, s', p.id, e, env);
    }
  }

  lemma FinishKeepsInv(s: System, t: TimedCall, env: Env)
    requires Inv(s, env) && t.call.FinishPreflight?
    ensures Inv(Step(s, t, env).0, env)
  {
    hide Append, ValidChain, IntentOk, StatusAfterPreflight, OrDefault;
    var c, s' := t.call, Step(s, t, env).0;
    if c.task !in s.tasks {
      assert s'.tasks == s.tasks;
      return;
    }
    var p := s.tasks[c.task];
    var e := PreflightEntry(p, c.preflight, c.correlation, c.eventId, t.at.stamp);
    assert TaskOk(s, p);
    FinishedOk(s, s', p, c.preflight, e, env);
    WriteKeepsInv(s, s', p.id, e, env);
  }

  lemma RequestKeepsInv(s: System, c: Call, at: Instant, env: Env)
    requires Inv(s, env) && c.RequestApproval?
    ensures Inv(s.(db := Request(s.db, c, at, env).0), env)
  {
    hide Append, ValidChain, CountFor, ProperlyApproved, Sealed, Inv;
    GetKeepsInv(s, c.id, at.now, env);
    var (db1, r1) := Get(s.db, c.id, at.now, env);
    var (db, r) := Request(s.db, c, at, env);
    if !r.Ok? {
      return;
    }
    RequestRecordKeepsInv(s.(db := db1), s.(db := db), c, r.intent, at.stamp, env);
  }

  lemma RequestRecordKeepsInv(s: System, s': System, c: Call, i: Intent, stamp: string, env: Env)
    requires Inv(s, env) && c.RequestApproval? && c.id in s.db.intents
    requires i == s.db.intents[c.id].(status := PendingApproval) && s' == s.(db := s'.db)
    requires s'.db == Commit(s.db, c.id, i, Reopened, RequestEntry(c, i, stamp), env.digest)
    ensures Inv(s', env)
  {
    hide Append, ValidChain, CountFor, ProperlyApproved, Sealed;
    var e := RequestEntry(c, i, stamp);
    assert IntentOk(s, c.id, env);
    SealUntouched(c.id, s.db.intents[c.id], i, env);
    CountAppend(s.db.ledger, e, env.digest, c.id, REVISING);
    CountAppend(s.db.ledger, e, env.digest, c.id, DECIDING);
    assert IntentOk(s', c.id, env);
    WriteKeepsInv(s, s', c.id, e, env);
  }

  /** A decision other than approval: one record, and the row is not granted. An approval
      before its release is handled as one, too. */
  lemma ClosingDecisionKeepsInv(s: System, s': System, id: string, e: Entry, env: Env)
    requires Inv(s, env) && id in s.db.intents && id in s'.db.intents
    requires e.intentId == Some(id) && e.action in DECIDING
    requires s'.db.ledger == Append(s.db.ledger, e, env.digest)
    requires OnlyTouches(s, s', id)
    requires var i, i' := s.db.intents[id], s'.db.intents[id];
             i' == i.(status := i'.status, preflightRevision := i.preflightRevision + 1,
                      authorizationId := i'.authorizationId)
    requires s'.db.approvals.Keys == s.db.approvals.Keys
    requires id in s.db.approvals ==>
               && s'.db.approvals[id].revision == s.db.approvals[id].revision + 1
               && s'.db.approvals[id].payloadHash == s.db.approvals[id].payloadHash
               && s'.db.approvals[id].state != Granted
    ensures Inv(s', env)
  {
    hide Append, ValidChain, CountFor, ProperlyApproved, Sealed, OnlyTouches;
    assert IntentOk(s, id, env);
    SealUntouched(id, s.db.intents[id], s'.db.intents[id], env);
    CountAppend(s.db.ledger, e, env.digest, id, REVISING);
    CountAppend(s.db.ledger, e, env.digest, id, DECIDING);
    assert IntentOk(s', id, env);
    WriteKeepsInv(s, s', id, e, env);
  }

  lemma ClosingCommitKeepsInv(s: System, s': System, id: string, i: Intent, state: ApprovalState, decision: Decision,
                              actor: Principal, reason: string, e: Entry, env: Env)
    requires Inv(s, env) && id in s.db.intents && state != Granted
    requires i == s.db.intents[id].(status := i.status, preflightRevision := s.db.intents[id].preflightRevision + 1)
    requires e.intentId == Some(id) && e.action in DECIDING
    requires s'.db == Commit(s.db, id, i, Decided(state, decision, actor.id, reason), e, env.digest)
    requires s'.deciders == s.deciders[id := actor] && s'.tasks == s.tasks
    ensures Inv(s', env)
  {
    hide Append, ValidChain, IntentOk, TaskOk;
    ClosingDecisionKeepsInv(s, s', id, e, env);
  }

  lemma RefuseKeepsInv(s: System, t: TimedCall, env: Env)
    requires Inv(s, env) && t.call.RejectIntent?
    ensures Inv(Step(s, t, env).0, env)
  {
    hide Inv, OrDefault, Get, Commit;
    var c, at := t.call, t.at;
    GetKeepsInv(s, c.id, at.now, env);
    GetReplies(s.db, c.id, at.now, env);
    var s1 := s.(db := Get(s.db, c.id, at.now, env).0);
    var (db, r) := Refuse(s.db, c, at, env);
    if !r.Ok? {
      assert Step(s, t, env).0 == s1;
      return;
    }
    ClosingCommitKeepsInv(s1, Step(s, t, env).0, c.id, r.intent, Refused, Reject, c.actor, c.why,
                          RejectionEntry(c, r.intent, at.stamp), env);
  }

  lemma WithdrawKeepsInv(s: System, t: TimedCall, env: Env)
    requires Inv(s, env) && t.call.CancelIntent?
    ensures Inv(Step(s, t, env).0, env)
  {
    hide Inv, OrDefault, MayCancel, Get, Commit;
    var c, at := t.call, t.at;
    GetKeepsInv(s, c.id, at.now, env);
    GetReplies(s.db, c.id, at.now, env);
    var s1 := s.(db := Get(s.db, c.id, at.now, env).0);
    var (db, r) := Withdraw(s.db, c, at, env);
    if !r.Ok? {
      assert Step(s, t, env).0 == s1;
      return;
    }
    ClosingCommitKeepsInv(s1, Step(s, t, env).0, c.id, r.intent, Withdrawn, Cancel, c.actor,
                          OrDefault(c.reason, CANCELLED_REASON), CancellationEntry(c, r.intent, at.stamp), env);
  }

  lemma ApprovalsWithinIntents(s: System, env: Env)
    requires Inv(s, env)
    ensures s.db.approvals.Keys <= s.db.intents.Keys
  {
  }

  /** Approval writes its two records back to back. */
  lemma ApprovalIsRecorded(ledger: Ledger, a: Entry, b: Entry, h: Digest, id: string, approver: string,
                           payloadHash: string)
    requires a.action == "APPROVAL_APPROVED" && a.outcome == "SUCCESS" && a.actorId == approver
    requires b.action == "ACTION_READY_TO_EXECUTE" && b.actorId == SAFETY_GATE
    requires a.intentId == b.intentId == Some(id) && a.payloadHash == b.payloadHash == Some(payloadHash)
    ensures ApprovalRecorded(Append(Append(ledger, a, h), b, h), |ledger|, id, approver, payloadHash)
  {
    hide CanonicalOf, Append;
    AppendShape(ledger, a, h);
    AppendShape(Append(ledger, a, h), b, h);
    var l := Append(Append(ledger, a, h), b, h);
    assert l[|ledger|] == Append(ledger, a, h)[|ledger|];
  }

  lemma AuthorizeKeepsInv(s: System, t: TimedCall, env: Env)
    requires Inv(s, env) && t.call.ApproveIntent?
    ensures Inv(Step(s, t, env).0, env)
  {
    hide Append, ValidChain, OrDefault, MayApprove, Confirmed, EvaluatePolicy, ApprovalObstacle, Inv, Sealed;
    var c, at := t.call, t.at;
    GetKeepsInv(s, c.id, at.now, env);
    var (db1, r1) := Get(s.db, c.id, at.now, env);
    var (db, r) := Authorize(s.db, c, at, env);
    if !r.Ok? {
      assert Step(s, t, env).0 == s.(db := db1);
      return;
    }
    ApprovalsWithinIntents(s.(db := db1), env);
    ApprovalKeepsInv(s.(db := db1), Step(s, t, env).0, c, at.stamp, env);
  }

  /** The approval without its release: one record, and the row not granted yet. */
  function Unreleased(s: System, s': System, id: string, e: Entry, h: Digest): System
  {
    s'.(db := s'.db.(
      ledger := Append(s.db.ledger, e, h),
      approvals := if id in s.db.approvals && id in s'.db.approvals
                   then s.db.approvals[id := s'.db.approvals[id].(state := Pending)] else s.db.approvals))
  }

  /** The rows of an approved intent, in both states. */
  predicate ApprovedRows(s: System, s': System, c: Call)
    requires c.ApproveIntent?
  {
    && c.id in s.db.intents && c.id in s'.db.intents && s.db.approvals.Keys <= s.db.intents.Keys
    && var i := s.db.intents[c.id];
       var decide := Decided(Granted, Approve, c.actor.id, OrDefault(c.reason, APPROVED_REASON));
       && s'.db.intents == s.db.intents[c.id := i.(
            status := ReadyToExecute, preflightRevision := i.preflightRevision + 1,
            authorizationId := s'.db.intents[c.id].authorizationId)]
       && s'.db.approvals == (if c.id in s.db.approvals
                              then s.db.approvals[c.id := decide(s.db.approvals[c.id])] else s.db.approvals)
       && s'.deciders == s.deciders[c.id := c.actor] && s'.tasks == s.tasks
  }

  lemma UnreleasedKeepsInv(s: System, s': System, c: Call, a: Entry, env: Env)
    requires Inv(s, env) && c.ApproveIntent? && ApprovedRows(s, s', c)
    requires a.intentId == Some(c.id) && a.action == "APPROVAL_APPROVED"
    ensures Inv(Unreleased(s, s', c.id, a, env.digest), env)
  {
    hide Append, Inv, OrDefault;
    ClosingDecisionKeepsInv(s, Unreleased(s, s', c.id, a, env.digest), c.id, a, env);
  }

  /** Between the two records the row stands as decided but not yet granted. */
  lemma ApprovalKeepsInv(s: System, s': System, c: Call, stamp: string, env: Env)
    requires Inv(s, env) && c.ApproveIntent? && ApprovedRows(s, s', c)
    requires ApprovalObstacle(s.db.intents[c.id], c, env.settings).None?
    requires var i := s.db.intents[c.id];
             s'.db.ledger == Append(Append(s.db.ledger, ApprovalEntry(c, i, stamp), env.digest),
                                    ReadyEntry(c, i, stamp), env.digest)
    ensures Inv(s', env)
  {
    hide Append, OrDefault, ApprovalObstacle, Inv, ReadyEntry;
    var i := s.db.intents[c.id];
    var a := ApprovalEntry(c, i, stamp);
    assert a.intentId == Some(c.id) && a.action == "APPROVAL_APPROVED";
    hide ApprovalEntry;
    UnreleasedKeepsInv(s, s', c, a, env);
    ReleaseKeepsInv(Unreleased(s, s', c.id, a, env.digest), s', s.db.ledger, c, i, stamp, env);
  }

  lemma ReleaseKeepsInv(s: System, s': System, ledger: Ledger, c: Call, i: Intent, stamp: string, env: Env)
    requires Inv(s, env) && c.ApproveIntent? && ApprovalObstacle(i, c, env.settings).None?
    requires c.id in s.db.intents && c.id in s.deciders && s.deciders[c.id] == c.actor
    requires s' == s.(db := s'.db) && s'.db.intents == s.db.intents
    requires s.db.intents[c.id].requestedBy == i.requestedBy && s.db.intents[c.id].risk == i.risk
    requires s.db.intents[c.id].payloadHash == i.payloadHash
    requires s.db.ledger == Append(ledger, ApprovalEntry(c, i, stamp), env.digest)
    requires s'.db.ledger == Append(s.db.ledger, ReadyEntry(c, i, stamp), env.digest)
    requires if c.id in s.db.approvals
             then s'.db.approvals == s.db.approvals[c.id := s.db.approvals[c.id].(state := Granted)]
             else s'.db.approvals == s.db.approvals
    requires c.id in s.db.approvals ==>
               s.db.approvals[c.id].decision == Some(Approve) && s.db.approvals[c.id].decisionMaker == Some(c.actor.id)
    ensures Inv(s', env)
  {
    hide Append, ValidChain, CountFor, OrDefault, MayApprove, Confirmed, EvaluatePolicy, ProperlyApproved;
    hide ApprovalObstacle, Sealed;
    var b := ReadyEntry(c, i, stamp);
    assert IntentOk(s, c.id, env);
    CountAppend(s.db.ledger, b, env.digest, c.id, REVISING);
    CountAppend(s.db.ledger, b, env.digest, c.id, DECIDING);
    ApprovedNow(s', ledger, c, i, stamp, env);
    assert IntentOk(s', c.id, env);
    WriteKeepsInv(s, s', c.id, b, env);
  }

  lemma ApprovedNow(s: System, ledger: Ledger, c: Call, i: Intent, stamp: string, env: Env)
    requires c.ApproveIntent? && c.id in s.db.intents && c.id in s.deciders && s.deciders[c.id] == c.actor
    requires ApprovalObstacle(i, c, env.settings).None?
    requires s.db.intents[c.id].requestedBy == i.requestedBy && s.db.intents[c.id].risk == i.risk
    requires s.db.intents[c.id].payloadHash == i.payloadHash
    requires s.db.ledger
          == Append(Append(ledger, ApprovalEntry(c, i, stamp), env.digest), ReadyEntry(c, i, stamp), env.digest)
    requires c.id in s.db.approvals ==>
               && s.db.approvals[c.id].state == Granted && s.db.approvals[c.id].decision == Some(Approve)
               && s.db.approvals[c.id].decisionMaker == Some(c.actor.id)
    ensures c.id in s.db.approvals ==> ProperlyApproved(s, c.id)
  {
    hide Append, MayApprove, Confirmed, EvaluatePolicy, OrDefault;
    ApprovalIsRecorded(ledger, ApprovalEntry(c, i, stamp), ReadyEntry(c, i, stamp), env.digest, c.id, c.actor.id,
                       i.payloadHash);
  }

  /** Other services' records disturb nothing. */
  lemma OtherAuditKeepsInv(s: System, t: TimedCall, env: Env)
    requires Inv(s, env) && t.call.OtherAudit?
    ensures Inv(Step(s, t, env).0, env)
  {
    hide Append, IntentOk, ValidChain, TaskOk;
    var e, s' := t.call.entry, Step(s, t, env).0;
    if !IsForeign(e) {
      assert s' == s;
      return;
    }
    ChainNonempty(s, env);
    AppendValid(s.db.ledger, e, env.digest);
    AppendShape(s.db.ledger, e, env.digest);
    TasksCarryOver(s, s', e, env);
    forall d | d in s'.db.intents ensures IntentOk(s', d, env) {
      Unaffected(s, s', d, e, env);
    }
    forall k | 0 <= k < |s'.db.ledger| ensures Known(s', s'.db.ledger[k].entry) {
      if k < |s.db.ledger| {
        assert s'.db.ledger[k] == s.db.ledger[k] && Known(s, s.db.ledger[k].entry);
      }
    }
  }

  lemma StepKeepsInv(s: System, t: TimedCall, env: Env)
    requires Inv(s, env)
    ensures Inv(Step(s, t, env).0, env)
  {
    match t.call
    case CreateIntent(_, _, _, _, _, _, _) =>
      hide Inv, Create;
      CreateKeepsInv(s, t.call, t.at, env);
    case GetIntent(id) =>
      hide Inv, Get;
      GetKeepsInv(s, id, t.at.now, env);
    case BeginPreflight(_, _) =>
      hide Inv, Step;
      BeginKeepsInv(s, t, env);
    case FinishPreflight(_, _, _, _) =>
      hide Inv, Step;
      FinishKeepsInv(s, t, env);
    case RequestApproval(_, _, _, _) =>
      hide Inv, Request;
      RequestKeepsInv(s, t.call, t.at, env);
    case ApproveIntent(_, _, _, _, _, _, _, _, _) =>
      hide Inv, Step;
      AuthorizeKeepsInv(s, t, env);
    case RejectIntent(_, _, _, _, _, _) =>
      hide Inv, Step;
      RefuseKeepsInv(s, t, env);
    case CancelIntent(_, _, _, _, _) =>
      hide Inv, Step;
      WithdrawKeepsInv(s, t, env);
    case OtherAudit(_) =>
      hide Inv, Step;
      OtherAuditKeepsInv(s, t, env);
  }
}
