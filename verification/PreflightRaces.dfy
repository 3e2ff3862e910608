/** What a preflight that overlaps with other calls can break. A finishing preflight writes
    back the status and the revision it remembered; this module says exactly when that keeps
    an intent from being ready without approval, step by step and over whole histories. */
module PreflightRaces {
  import opened Common
  import opened Audit
  import opened Governance
  import opened Intents
  import opened IntentRuns
  import opened IntentGuarantees

  /** The call is a preflight of the intent writing back. */
  predicate Finishes(s: System, t: TimedCall, id: string)
  {
    t.call.FinishPreflight? && t.call.task in s.tasks && s.tasks[t.call.task].id == id && id in s.db.intents
  }

  function Seen(s: System, t: TimedCall): Intent
    requires t.call.FinishPreflight? && t.call.task in s.tasks
  {
    s.tasks[t.call.task].seen
  }

  // ----------------------------------------------------------------------------
  // No execution without approval
  // ----------------------------------------------------------------------------

  predicate IsGranted(s: System, id: string)
  {
    id in s.db.approvals && s.db.approvals[id].state == Granted
  }

  predicate NeedsApproval(s: System, id: string)
  {
    id in s.db.intents && s.db.intents[id].requiresApproval
  }

  /** An intent that needs approval is ready only while its approval row stands granted. */
  predicate GateHolds(s: System, id: string)
  {
    NeedsApproval(s, id) && s.db.intents[id].status == ReadyToExecute ==> IsGranted(s, id)
  }

  /** A finishing preflight does not bring a remembered release back over a row that no
      longer grants it. */
  predicate GateGuard(s: System, t: TimedCall, id: string)
  {
    Finishes(s, t, id) ==>
      || t.call.preflight.Blocked? || Seen(s, t).status != ReadyToExecute
      || !s.db.intents[id].requiresApproval || IsGranted(s, id)
  }

  /** The rows of an intent that the call does not address are as before, and a reading call
      can at most expire one. */
  lemma RowsElsewhere(s: System, t: TimedCall, id: string, env: Env)
    requires Target(s, t.call) != Some(id) || !Step(s, t, env).1.Ok? || t.call.GetIntent? || t.call.BeginPreflight?
    ensures var s' := Step(s, t, env).0;
            && (id in s'.db.intents <==> id in s.db.intents)
            && (id in s.db.intents ==>
                  || s'.db.intents[id] == s.db.intents[id]
                  || s'.db.intents[id] == s.db.intents[id].(status := Expired))
    ensures id in s.db.intents ==> (id in Step(s, t, env).0.db.approvals <==> id in s.db.approvals)
    ensures id in s.db.intents && id in s.db.approvals ==> Step(s, t, env).0.db.approvals[id] == s.db.approvals[id]
  {
    hide Step, Preflighted, IsForeign;
    StepRows(s, t, env);
  }

  lemma GateStepElsewhere(s: System, t: TimedCall, id: string, env: Env)
    requires Target(s, t.call) != Some(id) || !Step(s, t, env).1.Ok? || t.call.GetIntent? || t.call.BeginPreflight?
    requires GateHolds(s, id)
    ensures GateHolds(Step(s, t, env).0, id)
  {
    hide Step;
    RowsElsewhere(s, t, id, env);
  }

  lemma KeyedApprovals(s: System, id: string, env: Env)
    requires Inv(s, env) && id in s.db.intents
    ensures id in s.db.approvals <==> s.db.intents[id].requiresApproval
  {
    assert IntentOk(s, id, env);
  }

  lemma FinishSucceeds(s: System, t: TimedCall, id: string, env: Env)
    requires Finishes(s, t, id)
    ensures Step(s, t, env).1.Ok?
  {
    hide Append, Preflighted, PreflightEntry;
  }

  /** The exact step: of all calls only a finishing preflight can break the gate, and it does
      exactly when its guard fails. */
  lemma StepKeepsGateIff(s: System, t: TimedCall, id: string, env: Env)
    requires Inv(s, env) && GateHolds(s, id)
    ensures GateHolds(Step(s, t, env).0, id) <==> GateGuard(s, t, id)
  {
    hide Step, Inv;
    var (s', r) := Step(s, t, env);
    if Finishes(s, t, id) {
      FinishSucceeds(s, t, id, env);
      StepRows(s, t, env);
    } else if Target(s, t.call) != Some(id) || !r.Ok? || t.call.GetIntent? || t.call.BeginPreflight? {
      GateStepElsewhere(s, t, id, env);
    } else {
      StepRows(s, t, env);
      if id in s.db.intents {
        KeyedApprovals(s, id, env);
      }
    }
  }

  ghost predicate GateHoldsAt(calls: seq<TimedCall>, k: nat, id: string, env: Env)
    requires k <= |calls|
  {
    GateHolds(After(calls, k, env), id)
  }

  ghost predicate GateGuardAt(calls: seq<TimedCall>, k: nat, id: string, env: Env)
    requires k < |calls|
  {
    GateGuard(After(calls, k, env), calls[k], id)
  }

  lemma GateHoldsNextIff(calls: seq<TimedCall>, k: nat, id: string, env: Env)
    requires k < |calls| && GateHoldsAt(calls, k, id, env)
    ensures GateHoldsAt(calls, k + 1, id, env) <==> GateGuardAt(calls, k, id, env)
  {
    hide Step, GateHolds, GateGuard, Inv;
    AfterInv(calls, k, env);
    StepKeepsGateIff(After(calls, k, env), calls[k], id, env);
  }

  /** Over whole histories: the gate holds at every moment exactly when every preflight of
      the intent that finished met its guard. */
  lemma {:induction false} GateHoldsThroughoutIff(calls: seq<TimedCall>, n: nat, id: string, env: Env)
    requires n <= |calls|
    ensures (forall k :: 0 <= k <= n ==> GateHoldsAt(calls, k, id, env))
      <==> (forall k :: 0 <= k < n ==> GateGuardAt(calls, k, id, env))
  {
    hide Step, After, GateHoldsAt, GateGuardAt;
    if n == 0 {
      FreshGate(calls, id, env);
    } else {
      GateHoldsThroughoutIff(calls, n - 1, id, env);
      if GateHoldsAt(calls, n - 1, id, env) {
        GateHoldsNextIff(calls, n - 1, id, env);
      }
    }
  }

  lemma FreshGate(calls: seq<TimedCall>, id: string, env: Env)
    ensures GateHoldsAt(calls, 0, id, env)
  {
  }

  /** No execution without approval, in every history whose finishing preflights of the
      intent met their guard: a ready intent that needs approval was approved by someone with
      authority who is not its requester where the risk is high, and the ledger shows it. */
  lemma ReadyMeansApproved(calls: seq<TimedCall>, n: nat, id: string, env: Env)
    requires n <= |calls|
    requires forall k :: 0 <= k < n ==> GateGuardAt(calls, k, id, env)
    ensures var s := After(calls, n, env);
            id in s.db.intents && s.db.intents[id].risk != Low && s.db.intents[id].status == ReadyToExecute ==>
              && ProperlyApproved(s, id)
              && (s.db.intents[id].risk in {High, Critical} ==>
                    s.db.approvals[id].decisionMaker != Some(s.db.intents[id].requestedBy))
  {
    hide Step, GateGuardAt, ProperlyApproved, ValidChain, Sealed, RowOk, After;
    GateHoldsThroughoutIff(calls, n, id, env);
    assert GateHoldsAt(calls, n, id, env);
    GrantedMeansApproved(calls, n, id, env);
    AfterInv(calls, n, env);
    var s := After(calls, n, env);
    assert id in s.db.intents ==> IntentOk(s, id, env);
  }

  /** In the same histories, what is read as ready is within its time and properly approved. */
  lemma ReadyReadsAreApproved(calls: seq<TimedCall>, n: nat, env: Env)
    requires n < |calls| && calls[n].call.GetIntent?
    requires forall k :: 0 <= k < n ==> GateGuardAt(calls, k, calls[n].call.id, env)
    ensures var r, s' := ReplyTo(calls, n, env), After(calls, n + 1, env);
            r.Ok? && r.intent.status == ReadyToExecute ==>
              && calls[n].at.now <= r.intent.expiresAt && calls[n].call.id in s'.db.intents
              && (r.intent.risk != Low ==> ProperlyApproved(s', calls[n].call.id))
  {
    hide Step, After, ProperlyApproved;
    var id := calls[n].call.id;
    ReadyIsNeverStale(calls, n, env);
    assert GateGuardAt(calls, n, id, env);
    ReadyMeansApproved(calls, n + 1, id, env);
  }

  // ----------------------------------------------------------------------------
  // Nothing blocked since the release
  // ----------------------------------------------------------------------------

  /** Whether the intent's records since its last release include a blocked preflight. */
  predicate BlockedSince(ledger: Ledger, id: string)
  {
    if ledger == [] then false
    else
      var e := ledger[|ledger| - 1].entry;
      if Concerns(e, id) && e.action == "ACTION_READY_TO_EXECUTE" then false
      else if Concerns(e, id) && e.action == "ACTION_INTENT_PREFLIGHTED" && e.outcome == "BLOCKED" then true
      else BlockedSince(ledger[..|ledger| - 1], id)
  }

  lemma BlockedAppend(ledger: Ledger, e: Entry, h: Digest, id: string)
    ensures BlockedSince(Append(ledger, e, h), id) ==
      if Concerns(e, id) && e.action == "ACTION_READY_TO_EXECUTE" then false
      else if Concerns(e, id) && e.action == "ACTION_INTENT_PREFLIGHTED" && e.outcome == "BLOCKED" then true
      else BlockedSince(ledger, id)
  {
    hide Concerns;
    AppendShape(ledger, e, h);
  }

  /** The release is still the last word: granted, and no blocked preflight since. */
  predicate IsCleanlyGranted(s: System, id: string)
  {
    IsGranted(s, id) && !BlockedSince(s.db.ledger, id)
  }

  predicate CleanGateHolds(s: System, id: string)
  {
    NeedsApproval(s, id) && s.db.intents[id].status == ReadyToExecute ==> IsCleanlyGranted(s, id)
  }

  predicate CleanGateGuard(s: System, t: TimedCall, id: string)
  {
    Finishes(s, t, id) ==>
      || t.call.preflight.Blocked? || Seen(s, t).status != ReadyToExecute
      || !s.db.intents[id].requiresApproval || IsCleanlyGranted(s, id)
  }

  lemma BlockedAppendOne(ledger: Ledger, e: Entry, h: Digest, id: string)
    ensures BlockedSince(AppendAll(ledger, [e], h), id) == BlockedSince(Append(ledger, e, h), id)
  {
    hide Append, BlockedSince;
  }

  /** A step that is neither a blocked preflight nor an approval of the intent leaves that
      question as it was; an approval answers it with no. */
  lemma BlockedStep(s: System, t: TimedCall, id: string, env: Env)
    ensures var (s', r) := Step(s, t, env);
            && (!(Finishes(s, t, id) && t.call.preflight.Blocked?) && id in s.db.intents
                && !(t.call.ApproveIntent? && t.call.id == id && r.Ok?) ==>
                  BlockedSince(s'.db.ledger, id) == BlockedSince(s.db.ledger, id))
            && (t.call.ApproveIntent? && t.call.id == id && r.Ok? ==> !BlockedSince(s'.db.ledger, id))
  {
    hide Step, Append, BlockedSince, OrDefault, RiskText, OnlyExpiry, Wrote;
    StepRecords(s, t, env);
    StepRows(s, t, env);
    var es, l, h := Records(s, t, Step(s, t, env).1), s.db.ledger, env.digest;
    if |es| == 0 {
      NothingAppended(l, h);
    } else if |es| == 1 {
      assert es == [es[0]];
      BlockedAppendOne(l, es[0], h, id);
      BlockedAppend(l, es[0], h, id);
    } else {
      assert es == [es[0], es[1]];
      AppendTwo(l, es[0], es[1], h);
      BlockedAppend(l, es[0], h, id);
      BlockedAppend(Append(l, es[0], h), es[1], h, id);
    }
  }

  lemma StepKeepsCleanGateIff(s: System, t: TimedCall, id: string, env: Env)
    requires Inv(s, env) && CleanGateHolds(s, id)
    ensures CleanGateHolds(Step(s, t, env).0, id) <==> CleanGateGuard(s, t, id)
  {
    hide Step, Inv, BlockedSince;
    var (s', r) := Step(s, t, env);
    BlockedStep(s, t, id, env);
    if Finishes(s, t, id) {
      FinishSucceeds(s, t, id, env);
      StepRows(s, t, env);
    } else if Target(s, t.call) != Some(id) || !r.Ok? || t.call.GetIntent? || t.call.BeginPreflight? {
      RowsElsewhere(s, t, id, env);
    } else {
      StepRows(s, t, env);
      if id in s.db.intents {
        KeyedApprovals(s, id, env);
      }
    }
  }

  ghost predicate CleanGateHoldsAt(calls: seq<TimedCall>, k: nat, id: string, env: Env)
    requires k <= |calls|
  {
    CleanGateHolds(After(calls, k, env), id)
  }

  ghost predicate CleanGateGuardAt(calls: seq<TimedCall>, k: nat, id: string, env: Env)
    requires k < |calls|
  {
    CleanGateGuard(After(calls, k, env), calls[k], id)
  }

  lemma CleanGateHoldsNextIff(calls: seq<TimedCall>, k: nat, id: string, env: Env)
    requires k < |calls| && CleanGateHoldsAt(calls, k, id, env)
    ensures CleanGateHoldsAt(calls, k + 1, id, env) <==> CleanGateGuardAt(calls, k, id, env)
  {
    hide Step, CleanGateHolds, CleanGateGuard, Inv;
    AfterInv(calls, k, env);
    StepKeepsCleanGateIff(After(calls, k, env), calls[k], id, env);
  }

  /** The same for the stronger gate. */
  lemma {:induction false} CleanGateHoldsThroughoutIff(calls: seq<TimedCall>, n: nat, id: string, env: Env)
    requires n <= |calls|
    ensures (forall k :: 0 <= k <= n ==> CleanGateHoldsAt(calls, k, id, env))
      <==> (forall k :: 0 <= k < n ==> CleanGateGuardAt(calls, k, id, env))
  {
    hide Step, After, CleanGateHoldsAt, CleanGateGuardAt;
    if n == 0 {
      FreshCleanGate(calls, id, env);
    } else {
      CleanGateHoldsThroughoutIff(calls, n - 1, id, env);
      if CleanGateHoldsAt(calls, n - 1, id, env) {
        CleanGateHoldsNextIff(calls, n - 1, id, env);
      }
    }
  }

  lemma FreshCleanGate(calls: seq<TimedCall>, id: string, env: Env)
    ensures CleanGateHoldsAt(calls, 0, id, env)
  {
  }

  /** A recorded release with no blocked preflight since has only unblocked ones behind it. */
  lemma {:induction false} UnblockedSince(ledger: Ledger, j: nat, id: string, approver: string, payloadHash: string)
    requires ApprovalRecorded(ledger, j, id, approver, payloadHash) && !BlockedSince(ledger, id)
    ensures forall k :: j + 1 < k < |ledger| && Concerns(ledger[k].entry, id) ==> ledger[k].entry.outcome != "BLOCKED"
  {
    hide Concerns;
    var n := |ledger| - 1;
    if j + 1 < n {
      var init := ledger[..n];
      assert ApprovalRecorded(init, j, id, approver, payloadHash);
      UnblockedSince(init, j, id, approver, payloadHash);
      assert forall k :: 0 <= k < n ==> init[k] == ledger[k];
    }
  }

  /** In histories that meet the stronger guard a ready intent also has nothing blocked
      between its release and now. */
  lemma ReadyMeansCleanlyApproved(calls: seq<TimedCall>, n: nat, id: string, env: Env)
    requires n <= |calls|
    requires forall k :: 0 <= k < n ==> CleanGateGuardAt(calls, k, id, env)
    ensures var s := After(calls, n, env);
            id in s.db.intents && s.db.intents[id].risk != Low && s.db.intents[id].status == ReadyToExecute ==>
              && ProperlyApproved(s, id)
              && exists j: nat ::
                   && ApprovalRecorded(s.db.ledger, j, id, s.deciders[id].id, s.db.intents[id].payloadHash)
                   && forall k :: j + 1 < k < |s.db.ledger| && Concerns(s.db.ledger[k].entry, id) ==>
                        && s.db.ledger[k].entry.action == "ACTION_INTENT_PREFLIGHTED"
                        && s.db.ledger[k].entry.outcome != "BLOCKED"
  {
    hide Step, CleanGateGuardAt, ValidChain, Sealed, RowOk, BlockedSince, MayApprove, Concerns, After;
    CleanGateHoldsThroughoutIff(calls, n, id, env);
    assert CleanGateHoldsAt(calls, n, id, env);
    GrantedMeansApproved(calls, n, id, env);
    AfterInv(calls, n, env);
    var s := After(calls, n, env);
    assert id in s.db.intents ==> IntentOk(s, id, env);
    if id in s.db.intents && s.db.intents[id].risk != Low && s.db.intents[id].status == ReadyToExecute {
      var d, hash := s.deciders[id].id, s.db.intents[id].payloadHash;
      var j: nat :| ApprovalRecorded(s.db.ledger, j, id, d, hash);
      UnblockedSince(s.db.ledger, j, id, d, hash);
    }
  }
}
