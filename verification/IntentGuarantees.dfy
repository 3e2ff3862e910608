/** What the approval workflow promises over every history of calls, however preflights
    overlap with the other calls. */
module IntentGuarantees {
  import opened Common
  import opened Audit
  import opened Governance
  import opened Intents
  import opened IntentRuns

  /** The system after the first `n` calls of a history that starts on a fresh database. */
  ghost function After(calls: seq<TimedCall>, n: nat, env: Env): System
    requires n <= |calls|
  {
    if n == 0 then Fresh(env.digest) else Step(After(calls, n - 1, env), calls[n - 1], env).0
  }

  lemma {:induction false} AfterInv(calls: seq<TimedCall>, n: nat, env: Env)
    requires n <= |calls|
    ensures Inv(After(calls, n, env), env)
  {
    hide Inv, Step, Fresh;
    if n == 0 {
      FreshInv(env);
    } else {
      AfterInv(calls, n - 1, env);
      StepKeepsInv(After(calls, n - 1, env), calls[n - 1], env);
    }
  }

  ghost function ReplyTo(calls: seq<TimedCall>, n: nat, env: Env): Reply
    requires n < |calls|
  {
    Step(After(calls, n, env), calls[n], env).1
  }

  // ----------------------------------------------------------------------------
  // What one call does to the rows
  // ----------------------------------------------------------------------------

  /** The intent a call is about. */
  function Target(s: System, c: Call): Option<string>
  {
    match c
    case FinishPreflight(task, _, _, _) => if task in s.tasks then Some(s.tasks[task].id) else None
    case OtherAudit(_) => None
    case _ => Some(c.id)
  }

  /** At most the addressed intent has changed, by expiring. */
  predicate OnlyExpiry(s: System, s': System, c: Call)
  {
    && s'.db.approvals == s.db.approvals && s'.db.intents.Keys == s.db.intents.Keys
    && forall id :: id in s.db.intents ==>
         || s'.db.intents[id] == s.db.intents[id]
         || (Target(s, c) == Some(id) && s'.db.intents[id] == s.db.intents[id].(status := Expired))
  }

  /** Both tables after a successful call that writes one intent and leaves its approval row
      in the given state, with as many more decisions. */
  predicate Wrote(s: System, s': System, id: string, i: Intent, state: ApprovalState, decisions: nat)
  {
    && id in s.db.intents && s'.db.intents == s.db.intents[id := i]
    && s'.db.approvals.Keys == s.db.approvals.Keys
    && (forall d :: d in s.db.approvals && d != id ==> s'.db.approvals[d] == s.db.approvals[d])
    && (id in s.db.approvals ==>
          && s'.db.approvals[id].state == state
          && s'.db.approvals[id].revision == s.db.approvals[id].revision + decisions)
  }

  predicate RowsAfter(s: System, s': System, c: Call, r: Reply)
  {
    if !r.Ok? then OnlyExpiry(s, s', c) && (r.Recorded? ==> c.OtherAudit? && IsForeign(c.entry))
    else
      match c
      case CreateIntent(id, _, _, _, _, _, _) =>
        && id !in s.db.intents && s'.db.intents == s.db.intents[id := r.intent]
        && r.intent.preflightRevision == 1 && (r.intent.requiresApproval ==> r.intent.status != ReadyToExecute)
        && s'.db.approvals.Keys <= s.db.approvals.Keys + {id}
        && (forall d :: d in s.db.approvals && d != id ==>
              d in s'.db.approvals && s'.db.approvals[d] == s.db.approvals[d])
      case GetIntent(_) => OnlyExpiry(s, s', c)
      case BeginPreflight(_, _) => OnlyExpiry(s, s', c)
      case FinishPreflight(task, result, _, _) =>
        && task in s.tasks && s'.db.approvals == s.db.approvals
        && var p := s.tasks[task];
           s'.db.intents == if p.id in s.db.intents
                            then s.db.intents[p.id := Preflighted(s.db.intents[p.id], p.seen, result)]
                            else s.db.intents
      case RequestApproval(id, _, _, _) =>
        id in s.db.intents && Wrote(s, s', id, s.db.intents[id].(status := PendingApproval), Pending, 0)
      case ApproveIntent(id, _, _, _, _, _, authorizationId, _, _) =>
        && id in s.db.intents
        && Wrote(s, s', id, s.db.intents[id].(
             status := ReadyToExecute, authorizationId := Some(authorizationId),
             preflightRevision := s.db.intents[id].preflightRevision + 1), Granted, 1)
      case RejectIntent(id, _, _, _, _, _) =>
        && id in s.db.intents
        && Wrote(s, s', id, s.db.intents[id].(
             status := Rejected, preflightRevision := s.db.intents[id].preflightRevision + 1), Refused, 1)
      case CancelIntent(id, _, _, _, _) =>
        && id in s.db.intents
        && Wrote(s, s', id, s.db.intents[id].(
             status := Cancelled, preflightRevision := s.db.intents[id].preflightRevision + 1), Withdrawn, 1)
      case OtherAudit(_) => false
  }

  lemma GetRows(s: System, c: Call, now: int, env: Env)
    requires !c.CreateIntent? && !c.FinishPreflight? && !c.OtherAudit?
    ensures OnlyExpiry(s, s.(db := Get(s.db, c.id, now, env).0), c)
  {
    hide Sealed;
  }

  lemma CreateRows(s: System, t: TimedCall, env: Env)
    requires t.call.CreateIntent?
    ensures var (s', r) := Step(s, t, env); RowsAfter(s, s', t.call, r)
  {
    hide Append, ValidChain, MayRequest, EvaluatePolicy, EvaluateRisk, CreationEntry, SignedOf;
  }

  lemma ReadingRows(s: System, t: TimedCall, env: Env)
    requires t.call.GetIntent? || t.call.BeginPreflight?
    ensures var (s', r) := Step(s, t, env); RowsAfter(s, s', t.call, r)
  {
    hide Get;
    GetRows(s, t.call, t.at.now, env);
    GetReplies(s.db, t.call.id, t.at.now, env);
  }

  lemma FinishRows(s: System, t: TimedCall, env: Env)
    requires t.call.FinishPreflight?
    ensures var (s', r) := Step(s, t, env); RowsAfter(s, s', t.call, r)
  {
    hide Append, PreflightEntry, Preflighted;
  }

  /** Reading and then committing a decision writes the one row, and its approval row. */
  lemma DecisionWrote(s: System, s': System, id: string, read: Intent, i: Intent, state: ApprovalState,
                      decision: Decision, actor: string, reason: string, e: Entry, h: Digest)
    requires id in s.db.intents
    requires s'.db.intents == Commit(s.db.(intents := s.db.intents[id := read]), id, i,
                                     Decided(state, decision, actor, reason), e, h).intents
    requires s'.db.approvals == Commit(s.db.(intents := s.db.intents[id := read]), id, i,
                                       Decided(state, decision, actor, reason), e, h).approvals
    ensures Wrote(s, s', id, i, state, 1)
  {
    hide Append;
  }

  lemma RequestRows(s: System, t: TimedCall, env: Env)
    requires t.call.RequestApproval?
    ensures var (s', r) := Step(s, t, env); RowsAfter(s, s', t.call, r)
  {
    hide Append, RequestEntry, Get, OnlyExpiry;
    GetRows(s, t.call, t.at.now, env);
    GetReplies(s.db, t.call.id, t.at.now, env);
  }

  lemma ApproveRows(s: System, t: TimedCall, env: Env)
    requires t.call.ApproveIntent?
    ensures var (s', r) := Step(s, t, env); RowsAfter(s, s', t.call, r)
  {
    hide Append, ApprovalEntry, ReadyEntry, Get, ValidChain, OrDefault, ApprovalObstacle, Commit, Wrote, OnlyExpiry;
    var c, id := t.call, t.call.id;
    GetRows(s, c, t.at.now, env);
    GetReplies(s.db, id, t.at.now, env);
    var read := Get(s.db, id, t.at.now, env).1;
    var (s', r) := Step(s, t, env);
    if r.Ok? {
      DecisionWrote(s, s', id, read.intent, r.intent, Granted, Approve, c.actor.id,
                    OrDefault(c.reason, APPROVED_REASON), ApprovalEntry(c, read.intent, t.at.stamp), env.digest);
    }
  }

  lemma RejectRows(s: System, t: TimedCall, env: Env)
    requires t.call.RejectIntent?
    ensures var (s', r) := Step(s, t, env); RowsAfter(s, s', t.call, r)
  {
    hide RejectionEntry, Get, Commit, Wrote, OnlyExpiry;
    var c, id := t.call, t.call.id;
    GetRows(s, c, t.at.now, env);
    GetReplies(s.db, id, t.at.now, env);
    var read := Get(s.db, id, t.at.now, env).1;
    var (s', r) := Step(s, t, env);
    if r.Ok? {
      DecisionWrote(s, s', id, read.intent, r.intent, Refused, Reject, c.actor.id, c.why,
                    RejectionEntry(c, r.intent, t.at.stamp), env.digest);
    }
  }

  lemma CancelRows(s: System, t: TimedCall, env: Env)
    requires t.call.CancelIntent?
    ensures var (s', r) := Step(s, t, env); RowsAfter(s, s', t.call, r)
  {
    hide CancellationEntry, Get, MayCancel, OrDefault, Commit, Wrote, OnlyExpiry;
    var c, id := t.call, t.call.id;
    GetRows(s, c, t.at.now, env);
    GetReplies(s.db, id, t.at.now, env);
    var read := Get(s.db, id, t.at.now, env).1;
    var (s', r) := Step(s, t, env);
    if r.Ok? {
      DecisionWrote(s, s', id, read.intent, r.intent, Withdrawn, Cancel, c.actor.id,
                    OrDefault(c.reason, CANCELLED_REASON), CancellationEntry(c, r.intent, t.at.stamp), env.digest);
    }
  }

  lemma OtherAuditRows(s: System, t: TimedCall, env: Env)
    requires t.call.OtherAudit?
    ensures var (s', r) := Step(s, t, env); RowsAfter(s, s', t.call, r)
  {
    hide Append, IsForeign;
  }

  /** Every call leaves the rows as described. */
  lemma StepRows(s: System, t: TimedCall, env: Env)
    ensures var (s', r) := Step(s, t, env); RowsAfter(s, s', t.call, r)
  {
    hide Step, RowsAfter;
    match t.call
    case CreateIntent(_, _, _, _, _, _, _) => CreateRows(s, t, env);
    case GetIntent(_) => ReadingRows(s, t, env);
    case BeginPreflight(_, _) => ReadingRows(s, t, env);
    case FinishPreflight(_, _, _, _) => FinishRows(s, t, env);
    case RequestApproval(_, _, _, _) => RequestRows(s, t, env);
    case ApproveIntent(_, _, _, _, _, _, _, _, _) => ApproveRows(s, t, env);
    case RejectIntent(_, _, _, _, _, _) => RejectRows(s, t, env);
    case CancelIntent(_, _, _, _, _) => CancelRows(s, t, env);
    case OtherAudit(_) => OtherAuditRows(s, t, env);
  }

  // ----------------------------------------------------------------------------
  // What one call adds to the ledger
  // ----------------------------------------------------------------------------

  /** Records a call adds: two for an approval, one for any other recorded change. */
  function Records(s: System, t: TimedCall, r: Reply): seq<Entry>
  {
    var stamp := t.at.stamp;
    match t.call
    case OtherAudit(e) => if r.Recorded? then [e] else []
    case FinishPreflight(task, result, correlation, eventId) =>
      if r.Ok? && task in s.tasks then [PreflightEntry(s.tasks[task], result, correlation, eventId, stamp)] else []
    case CreateIntent(_, _, _, _, _, _, _) => if r.Ok? then [CreationEntry(t.call, r.intent, stamp)] else []
    case RequestApproval(_, _, _, _) => if r.Ok? then [RequestEntry(t.call, r.intent, stamp)] else []
    case ApproveIntent(_, _, _, _, _, _, _, _, _) =>
      if r.Ok? then
        var read := r.intent.(preflightRevision := r.intent.preflightRevision - 1);
        [ApprovalEntry(t.call, read, stamp), ReadyEntry(t.call, read, stamp)]
      else []
    case RejectIntent(_, _, _, _, _, _) => if r.Ok? then [RejectionEntry(t.call, r.intent, stamp)] else []
    case CancelIntent(_, _, _, _, _) => if r.Ok? then [CancellationEntry(t.call, r.intent, stamp)] else []
    case _ => []
  }

  function AppendAll(ledger: Ledger, es: seq<Entry>, h: Digest): Ledger
  {
    if es == [] then ledger
    else if |es| == 1 then Append(ledger, es[0], h)
    else Append(AppendAll(ledger, es[..|es| - 1], h), es[|es| - 1], h)
  }

  lemma AppendTwo(ledger: Ledger, a: Entry, b: Entry, h: Digest)
    ensures AppendAll(ledger, [a, b], h) == Append(Append(ledger, a, h), b, h)
  {
    hide Append;
    assert [a, b][..1] == [a];
  }

  lemma GetKeepsLedger(db: Database, id: string, now: int, env: Env)
    ensures Get(db, id, now, env).0.ledger == db.ledger && Get(db, id, now, env).0.approvals == db.approvals
  {
    hide Sealed, Aged;
  }

  lemma ApprovalRecords(s: System, t: TimedCall, env: Env)
    requires t.call.ApproveIntent?
    ensures var (s', r) := Step(s, t, env); s'.db.ledger == AppendAll(s.db.ledger, Records(s, t, r), env.digest)
  {
    hide Append, AppendAll, Get, ValidChain, ApprovalObstacle, OrDefault;
    var c := t.call;
    GetKeepsLedger(s.db, c.id, t.at.now, env);
    NothingAppended(s.db.ledger, env.digest);
    var read := Get(s.db, c.id, t.at.now, env).1;
    var (s', r) := Step(s, t, env);
    if r.Ok? {
      AppendTwo(s.db.ledger, ApprovalEntry(c, read.intent, t.at.stamp), ReadyEntry(c, read.intent, t.at.stamp),
                env.digest);
    } else {
      GetReplies(s.db, c.id, t.at.now, env);
    }
  }

  lemma NothingAppended(ledger: Ledger, h: Digest)
    ensures AppendAll(ledger, [], h) == ledger
  {
  }

  lemma InsertionRecords(s: System, t: TimedCall, env: Env)
    requires t.call.CreateIntent? || t.call.FinishPreflight? || t.call.OtherAudit?
    ensures var (s', r) := Step(s, t, env); s'.db.ledger == AppendAll(s.db.ledger, Records(s, t, r), env.digest)
  {
    hide Append, ValidChain, MayRequest, CreationEntry, PreflightEntry, IsForeign, NewIntentRow, NewApprovalRow;
    hide Preflighted;
  }

  lemma UpdateRecords(s: System, t: TimedCall, env: Env)
    requires t.call.RequestApproval? || t.call.RejectIntent? || t.call.CancelIntent?
    ensures var (s', r) := Step(s, t, env); s'.db.ledger == AppendAll(s.db.ledger, Records(s, t, r), env.digest)
  {
    hide Append, Get, MayCancel, RequestEntry, RejectionEntry, CancellationEntry;
    GetKeepsLedger(s.db, t.call.id, t.at.now, env);
    GetReplies(s.db, t.call.id, t.at.now, env);
  }

  /** The ledger grows by exactly the records of the call. */
  lemma StepRecords(s: System, t: TimedCall, env: Env)
    ensures var (s', r) := Step(s, t, env); s'.db.ledger == AppendAll(s.db.ledger, Records(s, t, r), env.digest)
  {
    hide AppendAll, Get;
    if t.call.ApproveIntent? {
      ApprovalRecords(s, t, env);
    } else if t.call.GetIntent? || t.call.BeginPreflight? {
      GetKeepsLedger(s.db, t.call.id, t.at.now, env);
      NothingAppended(s.db.ledger, env.digest);
    } else if t.call.RequestApproval? || t.call.RejectIntent? || t.call.CancelIntent? {
      hide Step, Records;
      UpdateRecords(s, t, env);
    } else {
      hide Step, Records;
      InsertionRecords(s, t, env);
    }
  }

  lemma AppendAllShape(ledger: Ledger, es: seq<Entry>, h: Digest)
    requires |es| <= 2
    ensures ledger <= AppendAll(ledger, es, h) && |AppendAll(ledger, es, h)| == |ledger| + |es|
  {
    hide CanonicalOf;
    if |es| == 2 {
      AppendShape(AppendAll(ledger, es[..1], h), es[1], h);
      AppendShape(ledger, es[0], h);
    }
  }

  /** How often the call's records revise the intent. */
  function Revises(s: System, c: Call, r: Reply, id: string): nat
  {
    if r.Ok? && (c.FinishPreflight? || c.ApproveIntent? || c.RejectIntent? || c.CancelIntent?)
       && Target(s, c) == Some(id) then 1 else 0
  }

  /** How many of the records concern the intent and revise it. */
  function Revising(es: seq<Entry>, id: string): nat
  {
    if es == [] then 0
    else
      var e := es[|es| - 1];
      Revising(es[..|es| - 1], id) + if Concerns(e, id) && e.action in REVISING then 1 else 0
  }

  lemma {:induction false} CountAppendAll(ledger: Ledger, es: seq<Entry>, h: Digest, id: string)
    ensures CountFor(AppendAll(ledger, es, h), id, REVISING) == CountFor(ledger, id, REVISING) + Revising(es, id)
  {
    hide Append, Concerns;
    if es != [] {
      var init := es[..|es| - 1];
      CountAppendAll(ledger, init, h, id);
      NothingAppended(ledger, h);
      assert |es| == 1 ==> init == [];
      CountAppend(AppendAll(ledger, init, h), es[|es| - 1], h, id, REVISING);
    }
  }

  lemma OneRevising(e: Entry, id: string)
    ensures Revising([e], id) == if Concerns(e, id) && e.action in REVISING then 1 else 0
  {
    assert [e][..0] == [];
  }

  lemma TwoRevising(a: Entry, b: Entry, id: string)
    requires b.action !in REVISING
    ensures Revising([a, b], id) == if Concerns(a, id) && a.action in REVISING then 1 else 0
  {
    OneRevising(a, id);
    assert [a, b][..1] == [a];
  }

  lemma RecordsRevise(s: System, t: TimedCall, id: string, env: Env)
    ensures var r := Step(s, t, env).1; Revising(Records(s, t, r), id) == Revises(s, t.call, r, id)
  {
    hide Step, OrDefault, Revising, PreflightText, RiskText, OnlyExpiry, Wrote;
    StepRows(s, t, env);
    var r := Step(s, t, env).1;
    var es := Records(s, t, r);
    if |es| == 1 {
      OneRevising(es[0], id);
      assert es == [es[0]];
    } else if |es| == 2 {
      TwoRevising(es[0], es[1], id);
      assert es == [es[0], es[1]];
    } else {
      NoneRevising(id);
    }
  }

  lemma NoneRevising(id: string)
    ensures Revising([], id) == 0
  {
  }

  lemma CountRevisions(s: System, t: TimedCall, id: string, env: Env)
    ensures var (s', r) := Step(s, t, env);
            CountFor(s'.db.ledger, id, REVISING) == CountFor(s.db.ledger, id, REVISING) + Revises(s, t.call, r, id)
  {
    hide Step, CountFor, AppendAll, Records, Revising, Revises;
    StepRecords(s, t, env);
    RecordsRevise(s, t, id, env);
    CountAppendAll(s.db.ledger, Records(s, t, Step(s, t, env).1), env.digest, id);
  }

  // ----------------------------------------------------------------------------
  // Accounting
  // ----------------------------------------------------------------------------

  /** The revision a call leaves an intent at: one further for a decision, and one further than
      it was remembered for a finishing preflight. */
  function RevisionAfter(s: System, c: Call, r: Reply, id: string): int
    requires id in s.db.intents
  {
    if !r.Ok? || Target(s, c) != Some(id) then s.db.intents[id].preflightRevision
    else if c.FinishPreflight? then s.tasks[c.task].seen.preflightRevision + 1
    else s.db.intents[id].preflightRevision + Revises(s, c, r, id)
  }

  /** Records are only ever added, exactly as many as the call accounts for, every revision
      is as stated, and a failed call changes nothing but the expiry of what it read. */
  predicate Accounted(s: System, s': System, t: TimedCall, r: Reply)
  {
    && s.db.ledger <= s'.db.ledger && |s'.db.ledger| == |s.db.ledger| + |Records(s, t, r)|
    && (forall id :: id in s.db.intents ==>
          id in s'.db.intents && s'.db.intents[id].preflightRevision == RevisionAfter(s, t.call, r, id))
    && (r.Failed? ==> Records(s, t, r) == [] && OnlyExpiry(s, s', t.call))
  }

  lemma RevisionsAccounted(s: System, t: TimedCall, env: Env)
    ensures var (s', r) := Step(s, t, env);
            forall id :: id in s.db.intents ==>
              id in s'.db.intents && s'.db.intents[id].preflightRevision == RevisionAfter(s, t.call, r, id)
  {
    hide Step, StatusAfterPreflight, IsForeign;
    StepRows(s, t, env);
    var (s', r) := Step(s, t, env);
    forall id | id in s.db.intents
      ensures id in s'.db.intents && s'.db.intents[id].preflightRevision == RevisionAfter(s, t.call, r, id)
    {
      if !r.Ok? {
        assert OnlyExpiry(s, s', t.call);
      }
    }
  }

  lemma FailureRecordsNothing(s: System, t: TimedCall, env: Env)
    ensures var (s', r) := Step(s, t, env); r.Failed? ==> Records(s, t, r) == []
  {
    hide Create, Get, Request, Authorize, Refuse, Withdraw, IsForeign, Append;
  }

  /** Conservation, call by call. */
  lemma StepAccounts(s: System, t: TimedCall, env: Env)
    ensures var (s', r) := Step(s, t, env); Accounted(s, s', t, r)
  {
    hide Step, AppendAll, RevisionAfter;
    var (s', r) := Step(s, t, env);
    StepRows(s, t, env);
    StepRecords(s, t, env);
    RevisionsAccounted(s, t, env);
    FailureRecordsNothing(s, t, env);
    AppendAllShape(s.db.ledger, Records(s, t, r), env.digest);
  }

  ghost function TotalRecords(calls: seq<TimedCall>, n: nat, env: Env): nat
    requires n <= |calls|
  {
    if n == 0 then 0
    else
      TotalRecords(calls, n - 1, env) + |Records(After(calls, n - 1, env), calls[n - 1], ReplyTo(calls, n - 1, env))|
  }

  /** The audit trail verifies at every moment, is append-only, and has exactly the records
      of its calls, those of other services included, on top of the genesis record. */
  lemma {:induction false} LedgerAlwaysVerifies(calls: seq<TimedCall>, n: nat, env: Env)
    requires n <= |calls|
    ensures var l := After(calls, n, env).db.ledger;
            ValidChain(l, env.digest) && Genesis(env.digest) <= l && |l| == 1 + TotalRecords(calls, n, env)
  {
    hide Step, ValidChain, Append, Records, RevisionAfter;
    AfterInv(calls, n, env);
    if n > 0 {
      LedgerAlwaysVerifies(calls, n - 1, env);
      StepAccounts(After(calls, n - 1, env), calls[n - 1], env);
    } else {
      GenesisValid(env.digest);
    }
  }

  // ----------------------------------------------------------------------------
  // Guarantees that no overlap can break
  // ----------------------------------------------------------------------------

  /** An approval row that stands granted was granted by someone with approval authority who
      is not the requester of a high-risk action, and the ledger shows that approval, the
      release right after it, and of this service nothing but preflights since. */
  lemma GrantedMeansApproved(calls: seq<TimedCall>, n: nat, id: string, env: Env)
    requires n <= |calls|
    ensures var s := After(calls, n, env);
            id in s.db.approvals && s.db.approvals[id].state == Granted ==>
              && id in s.db.intents && ProperlyApproved(s, id)
              && (s.db.intents[id].risk in {High, Critical} ==>
                    s.db.approvals[id].decisionMaker != Some(s.db.intents[id].requestedBy))
  {
    hide After, ValidChain, CountFor, MayApprove, ApprovalRecorded, Sealed;
    AfterInv(calls, n, env);
    var s := After(calls, n, env);
    assert id in s.db.intents ==> IntentOk(s, id, env);
  }

  /** Reading never hands out an intent as ready that is past its time. */
  lemma ReadyIsNeverStale(calls: seq<TimedCall>, n: nat, env: Env)
    requires n < |calls| && calls[n].call.GetIntent?
    ensures var r := ReplyTo(calls, n, env);
            r.Ok? && r.intent.status == ReadyToExecute ==>
              && calls[n].at.now <= r.intent.expiresAt
              && calls[n].call.id in After(calls, n + 1, env).db.intents
              && After(calls, n + 1, env).db.intents[calls[n].call.id] == r.intent
  {
    hide Get;
    GetReplies(After(calls, n, env).db, calls[n].call.id, calls[n].at.now, env);
  }

  lemma SealedReads(db: Database, id: string, now: int, env: Env)
    requires id in db.intents ==> Sealed(id, db.intents[id], env)
    ensures Get(db, id, now, env).1 != Failed(IntentTampered)
  {
    hide Sealed;
  }

  /** No operation breaks a seal: in no history does a call find an intent tampered with. */
  lemma NeverTampered(calls: seq<TimedCall>, n: nat, env: Env)
    requires n < |calls|
    ensures ReplyTo(calls, n, env) != Failed(IntentTampered)
  {
    hide After, Sealed, Get, ValidChain, Append, Confirmed, MayApprove, MayRequest, MayCancel, EvaluatePolicy;
    hide IsForeign, RowOk, TaskOk, Known;
    AfterInv(calls, n, env);
    var s, t := After(calls, n, env), calls[n];
    if !t.call.FinishPreflight? && !t.call.OtherAudit? {
      assert t.call.id in s.db.intents ==> IntentOk(s, t.call.id, env);
      SealedReads(s.db, t.call.id, t.at.now, env);
    }
  }

  /** An approval row's revision is one more than the recorded decisions, and an intent's
      never exceeds one more than the recorded preflights and decisions. */
  lemma RevisionsCountRecords(calls: seq<TimedCall>, n: nat, id: string, env: Env)
    requires n <= |calls|
    ensures var db := After(calls, n, env).db;
            id in db.intents ==>
              && db.intents[id].preflightRevision <= 1 + CountFor(db.ledger, id, REVISING)
              && (id in db.approvals ==> db.approvals[id].revision == 1 + CountFor(db.ledger, id, DECIDING))
  {
    hide After, ValidChain, CountFor, MayApprove, ApprovalRecorded, Sealed;
    AfterInv(calls, n, env);
    var s := After(calls, n, env);
    assert id in s.db.intents ==> IntentOk(s, id, env);
  }

  /** An approval succeeds exactly when the intent exists and no obstacle stands; the audit
      check and the seal never refuse it. Cancellation and a failed preflight are no
      obstacles: such an intent is approved like a pending one. */
  lemma ApprovalSucceedsIff(calls: seq<TimedCall>, n: nat, t: TimedCall, env: Env)
    requires n <= |calls| && t.call.ApproveIntent?
    ensures var s := After(calls, n, env);
            var (s', r) := Step(s, t, env);
            && (r.Ok? <==> t.call.id in s.db.intents
                           && ApprovalObstacle(Aged(s.db.intents[t.call.id], t.at.now), t.call, env.settings).None?)
            && (r.Ok? ==> s'.db.intents[t.call.id].status == ReadyToExecute)
            && (forall i: Intent :: i.status in {Cancelled, PreflightFailed} ==>
                  ApprovalObstacle(i, t.call, env.settings)
                  == ApprovalObstacle(i.(status := PendingApproval), t.call, env.settings))
  {
    hide Append, ValidChain, MayApprove, Confirmed, EvaluatePolicy, OrDefault, Sealed, RowOk, TaskOk, Known, After;
    hide ApprovalEntry, ReadyEntry, IsSelfApproval, CountFor;
    AfterInv(calls, n, env);
    var s := After(calls, n, env);
    assert t.call.id in s.db.intents ==> IntentOk(s, t.call.id, env);
  }
}
