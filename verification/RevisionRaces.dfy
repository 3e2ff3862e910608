/** Revisions and optimistic locking when preflights overlap with other calls: exactly when
    revisions count, never fall, and let at most one decision through. */
module RevisionRaces {
  import opened Common
  import opened Audit
  import opened Governance
  import opened Intents
  import opened IntentRuns
  import opened IntentGuarantees
  import opened PreflightRaces

  function RevisionOf(s: System, id: string): int
  {
    if id in s.db.intents then s.db.intents[id].preflightRevision else 0
  }

  // ----------------------------------------------------------------------------
  // Revisions that count
  // ----------------------------------------------------------------------------

  /** The revision is one more than the recorded preflights and decisions. */
  predicate RevisionCounts(s: System, id: string)
  {
    id in s.db.intents ==> RevisionOf(s, id) == 1 + CountFor(s.db.ledger, id, REVISING)
  }

  /** A finishing preflight finds the revision it remembered. */
  predicate CountGuard(s: System, t: TimedCall, id: string)
  {
    Finishes(s, t, id) ==> Seen(s, t).preflightRevision == RevisionOf(s, id)
  }

  lemma NewIntentCounts(s: System, t: TimedCall, env: Env)
    requires Inv(s, env) && t.call.CreateIntent? && Step(s, t, env).1.Ok?
    ensures CountFor(s.db.ledger, t.call.id, REVISING) == 0
  {
    hide Step, ValidChain, IntentOk, TaskOk;
    StepRows(s, t, env);
    forall k | 0 <= k < |s.db.ledger| ensures !Concerns(s.db.ledger[k].entry, t.call.id) {
      assert Known(s, s.db.ledger[k].entry);
    }
    CountUnmentioned(s.db.ledger, t.call.id, REVISING);
  }

  lemma StepKeepsCountIff(s: System, t: TimedCall, id: string, env: Env)
    requires Inv(s, env) && RevisionCounts(s, id)
    ensures RevisionCounts(Step(s, t, env).0, id) <==> CountGuard(s, t, id)
  {
    hide Step, Inv, CountFor, Accounted, OnlyExpiry, Wrote;
    var (s', r) := Step(s, t, env);
    CountRevisions(s, t, id, env);
    RevisionsAccounted(s, t, env);
    StepRows(s, t, env);
    if Finishes(s, t, id) {
      FinishSucceeds(s, t, id, env);
    } else if t.call.CreateIntent? && r.Ok? && t.call.id == id {
      NewIntentCounts(s, t, env);
    } else if id !in s.db.intents {
      StaysUnknown(s, t, id, env);
    }
  }

  lemma StaysUnknown(s: System, t: TimedCall, id: string, env: Env)
    requires id !in s.db.intents && !(t.call.CreateIntent? && Step(s, t, env).1.Ok? && t.call.id == id)
    ensures id !in Step(s, t, env).0.db.intents
  {
    hide Step, IsForeign;
    StepRows(s, t, env);
  }

  ghost predicate RevisionCountsAt(calls: seq<TimedCall>, k: nat, id: string, env: Env)
    requires k <= |calls|
  {
    RevisionCounts(After(calls, k, env), id)
  }

  ghost predicate CountGuardAt(calls: seq<TimedCall>, k: nat, id: string, env: Env)
    requires k < |calls|
  {
    CountGuard(After(calls, k, env), calls[k], id)
  }

  lemma RevisionCountsNextIff(calls: seq<TimedCall>, k: nat, id: string, env: Env)
    requires k < |calls| && RevisionCountsAt(calls, k, id, env)
    ensures RevisionCountsAt(calls, k + 1, id, env) <==> CountGuardAt(calls, k, id, env)
  {
    hide Step, RevisionCounts, CountGuard, Inv;
    AfterInv(calls, k, env);
    StepKeepsCountIff(After(calls, k, env), calls[k], id, env);
  }

  /** Over whole histories: the revision counts the records at every moment exactly when every
      preflight of the intent that finished found the revision it remembered. */
  lemma {:induction false} RevisionCountsThroughoutIff(calls: seq<TimedCall>, n: nat, id: string, env: Env)
    requires n <= |calls|
    ensures (forall k :: 0 <= k <= n ==> RevisionCountsAt(calls, k, id, env))
      <==> (forall k :: 0 <= k < n ==> CountGuardAt(calls, k, id, env))
  {
    hide Step, After, RevisionCountsAt, CountGuardAt;
    if n == 0 {
      FreshCounts(calls, id, env);
    } else {
      RevisionCountsThroughoutIff(calls, n - 1, id, env);
      if RevisionCountsAt(calls, n - 1, id, env) {
        RevisionCountsNextIff(calls, n - 1, id, env);
      }
    }
  }

  lemma FreshCounts(calls: seq<TimedCall>, id: string, env: Env)
    ensures RevisionCountsAt(calls, 0, id, env)
  {
  }

  // ----------------------------------------------------------------------------
  // Revisions that never fall
  // ----------------------------------------------------------------------------

  /** A finishing preflight does not write a revision below the present one. */
  predicate RiseGuard(s: System, t: TimedCall, id: string)
  {
    Finishes(s, t, id) ==> Seen(s, t).preflightRevision + 1 >= RevisionOf(s, id)
  }

  /** The exact step: a revision falls only when a preflight that remembered an older one
      finishes more than one revision late. */
  lemma RevisionRisesIff(s: System, t: TimedCall, id: string, env: Env)
    requires id in s.db.intents
    ensures RevisionOf(s, id) <= RevisionOf(Step(s, t, env).0, id) <==> RiseGuard(s, t, id)
  {
    hide Step;
    RevisionsAccounted(s, t, env);
    if Finishes(s, t, id) {
      FinishSucceeds(s, t, id, env);
    }
  }

  /** The call at `k` does not lower the revision. */
  ghost predicate Rises(calls: seq<TimedCall>, k: nat, id: string, env: Env)
    requires k < |calls|
  {
    id in After(calls, k, env).db.intents ==>
      RevisionOf(After(calls, k, env), id) <= RevisionOf(After(calls, k + 1, env), id)
  }

  /** Over whole histories: the revision never falls exactly when every preflight of the
      intent that finished met its guard. */
  lemma RevisionsNeverFallIff(calls: seq<TimedCall>, n: nat, id: string, env: Env)
    requires n <= |calls|
    ensures (forall k :: 0 <= k < n ==> Rises(calls, k, id, env))
      <==> (forall k :: 0 <= k < n ==> RiseGuard(After(calls, k, env), calls[k], id))
  {
    hide Step, RiseGuard, RevisionOf, Rises;
    forall k | 0 <= k < n
      ensures Rises(calls, k, id, env) <==> RiseGuard(After(calls, k, env), calls[k], id)
    {
      CallRisesIff(calls, k, id, env);
    }
  }

  lemma CallRisesIff(calls: seq<TimedCall>, k: nat, id: string, env: Env)
    requires k < |calls|
    ensures Rises(calls, k, id, env) <==> RiseGuard(After(calls, k, env), calls[k], id)
  {
    hide Step, RiseGuard, RevisionOf;
    if id in After(calls, k, env).db.intents {
      RevisionRisesIff(After(calls, k, env), calls[k], id, env);
    } else {
      NothingFinishes(After(calls, k, env), calls[k], id);
    }
  }

  lemma NothingFinishes(s: System, t: TimedCall, id: string)
    requires id !in s.db.intents
    ensures RiseGuard(s, t, id)
  {
  }

  /** Between two moments revisions do not fall if every finishing preflight met its guard. */
  lemma {:induction false} RevisionsGrow(calls: seq<TimedCall>, m: nat, n: nat, id: string, env: Env)
    requires m <= n <= |calls| && id in After(calls, m, env).db.intents
    requires forall k :: m <= k < n ==> RiseGuard(After(calls, k, env), calls[k], id)
    ensures id in After(calls, n, env).db.intents
    ensures RevisionOf(After(calls, m, env), id) <= RevisionOf(After(calls, n, env), id)
    decreases n - m
  {
    hide Step, RiseGuard, RevisionOf;
    if m < n {
      RevisionsGrow(calls, m, n - 1, id, env);
      RevisionsAccounted(After(calls, n - 1, env), calls[n - 1], env);
      RevisionRisesIff(After(calls, n - 1, env), calls[n - 1], id, env);
    }
  }

  // ----------------------------------------------------------------------------
  // At most one decision per revision
  // ----------------------------------------------------------------------------

  /** The revision a decision was conditioned on, if it was an approval or a rejection. */
  function Expected(c: Call): Option<int>
  {
    match c
    case ApproveIntent(_, _, _, _, expected, _, _, _, _) => expected
    case RejectIntent(_, _, _, expected, _, _) => expected
    case _ => None
  }

  /** The call decided the intent, as an approval or a rejection. */
  predicate Decides(c: Call, r: Reply, id: string)
  {
    (c.ApproveIntent? || c.RejectIntent?) && c.id == id && r.Ok?
  }

  /** The highest revision at which the intent has been approved or rejected. */
  ghost function DecidedAt(calls: seq<TimedCall>, n: nat, id: string, env: Env): int
    requires n <= |calls|
  {
    if n == 0 then 0
    else
      var before, revision := DecidedAt(calls, n - 1, id, env), RevisionOf(After(calls, n - 1, env), id);
      if Decides(calls[n - 1].call, ReplyTo(calls, n - 1, env), id) && revision > before then revision else before
  }

  /** The intent has moved on from every revision it was decided at. */
  ghost predicate MovedOn(calls: seq<TimedCall>, n: nat, id: string, env: Env)
    requires n <= |calls|
  {
    id in After(calls, n, env).db.intents ==> RevisionOf(After(calls, n, env), id) > DecidedAt(calls, n, id, env)
  }

  /** A finishing preflight began no earlier than the last decision's revision. */
  ghost predicate DecisionGuard(calls: seq<TimedCall>, n: nat, id: string, env: Env)
    requires n < |calls|
  {
    var s := After(calls, n, env);
    Finishes(s, calls[n], id) ==> Seen(s, calls[n]).preflightRevision >= DecidedAt(calls, n, id, env)
  }

  lemma DecisionRevises(s: System, t: TimedCall, id: string, env: Env)
    requires Decides(t.call, Step(s, t, env).1, id)
    ensures id in s.db.intents && RevisionOf(Step(s, t, env).0, id) == RevisionOf(s, id) + 1
    ensures Expected(t.call).Some? ==> Expected(t.call).value == RevisionOf(s, id)
  {
    hide Append, ValidChain, MayApprove, Confirmed, EvaluatePolicy, OrDefault, Sealed, IsSelfApproval;
  }

  lemma {:induction false} UndecidedBefore(calls: seq<TimedCall>, n: nat, id: string, env: Env)
    requires n <= |calls| && id !in After(calls, n, env).db.intents
    ensures DecidedAt(calls, n, id, env) == 0
  {
    hide Step, RevisionOf;
    if n > 0 {
      var s, t := After(calls, n - 1, env), calls[n - 1];
      RevisionsAccounted(s, t, env);
      if Decides(t.call, ReplyTo(calls, n - 1, env), id) {
        DecisionRevises(s, t, id, env);
      }
      UndecidedBefore(calls, n - 1, id, env);
    }
  }

  lemma StepMovesOnIff(calls: seq<TimedCall>, n: nat, id: string, env: Env)
    requires n < |calls| && MovedOn(calls, n, id, env)
    ensures MovedOn(calls, n + 1, id, env) <==> DecisionGuard(calls, n, id, env)
  {
    hide Step, After;
    var s, t := After(calls, n, env), calls[n];
    NextState(calls, n, env);
    var (s', r) := Step(s, t, env);
    if id in s.db.intents {
      RevisionsAccounted(s, t, env);
      if Finishes(s, t, id) {
        FinishSucceeds(s, t, id, env);
      } else if Decides(t.call, r, id) {
        DecisionRevises(s, t, id, env);
      }
    } else {
      UndecidedBefore(calls, n, id, env);
      if Decides(t.call, r, id) {
        DecisionRevises(s, t, id, env);
      }
      if id in s'.db.intents {
        NewRevision(s, t, id, env);
      }
    }
  }

  lemma NextState(calls: seq<TimedCall>, n: nat, env: Env)
    requires n < |calls|
    ensures After(calls, n + 1, env) == Step(After(calls, n, env), calls[n], env).0
  {
    hide Step;
  }

  lemma NewRevision(s: System, t: TimedCall, id: string, env: Env)
    requires id !in s.db.intents && id in Step(s, t, env).0.db.intents
    ensures RevisionOf(Step(s, t, env).0, id) == 1 && !Decides(t.call, Step(s, t, env).1, id)
  {
    hide Step, IsForeign;
    StepRows(s, t, env);
  }

  /** Over whole histories: the intent has always moved on from its decisions exactly when
      every preflight that finished had begun no earlier than the last of them. */
  lemma {:induction false} MovedOnThroughoutIff(calls: seq<TimedCall>, n: nat, id: string, env: Env)
    requires n <= |calls|
    ensures (forall k :: 0 <= k <= n ==> MovedOn(calls, k, id, env))
      <==> (forall k :: 0 <= k < n ==> DecisionGuard(calls, k, id, env))
  {
    hide Step, After, MovedOn, DecisionGuard;
    if n == 0 {
      NothingDecided(calls, id, env);
    } else {
      MovedOnThroughoutIff(calls, n - 1, id, env);
      if MovedOn(calls, n - 1, id, env) {
        StepMovesOnIff(calls, n - 1, id, env);
      }
    }
  }

  lemma NothingDecided(calls: seq<TimedCall>, id: string, env: Env)
    ensures MovedOn(calls, 0, id, env)
  {
  }

  lemma {:induction false} DecisionsRemembered(calls: seq<TimedCall>, m: nat, n: nat, id: string, env: Env)
    requires m <= n <= |calls|
    ensures DecidedAt(calls, m, id, env) <= DecidedAt(calls, n, id, env)
    decreases n - m
  {
    hide Step, After;
    if m < n {
      DecisionsRemembered(calls, m, n - 1, id, env);
    }
  }

  /** Optimistic locking, in every history whose finishing preflights of the intent met their
      guard: of all approvals and rejections that carry the same expected revision, at most
      one ever succeeds. */
  lemma OneDecisionPerRevision(calls: seq<TimedCall>, m: nat, n: nat, env: Env)
    requires m < n < |calls|
    requires Expected(calls[m].call).Some? && Expected(calls[m].call) == Expected(calls[n].call)
    requires calls[m].call.id == calls[n].call.id
    requires forall k :: 0 <= k < n ==> DecisionGuard(calls, k, calls[n].call.id, env)
    ensures !(ReplyTo(calls, m, env).Ok? && ReplyTo(calls, n, env).Ok?)
  {
    hide Step, After, DecisionGuard;
    var id := calls[n].call.id;
    MovedOnThroughoutIff(calls, n, id, env);
    assert MovedOn(calls, n, id, env);
    if ReplyTo(calls, m, env).Ok? && ReplyTo(calls, n, env).Ok? {
      DecisionRevises(After(calls, m, env), calls[m], id, env);
      DecisionRevises(After(calls, n, env), calls[n], id, env);
      DecisionsRemembered(calls, m + 1, n, id, env);
    }
  }

  lemma {:induction false} CountingMovesOn(calls: seq<TimedCall>, n: nat, id: string, env: Env)
    requires n <= |calls|
    requires forall k :: 0 <= k < n ==> CountGuardAt(calls, k, id, env)
    ensures MovedOn(calls, n, id, env)
    ensures forall k :: 0 <= k < n ==> DecisionGuard(calls, k, id, env)
  {
    hide Step, After, DecidedAt;
    if n == 0 {
      NothingDecided(calls, id, env);
    } else {
      CountingMovesOn(calls, n - 1, id, env);
      assert CountGuardAt(calls, n - 1, id, env);
      StepMovesOnIff(calls, n - 1, id, env);
    }
  }

  /** Whatever a preflight remembered of the status, the revision it finds is enough: where
      revisions count, of all approvals and rejections that carry the same expected revision
      at most one ever succeeds. */
  lemma CountingMeansOneDecision(calls: seq<TimedCall>, m: nat, n: nat, env: Env)
    requires m < n < |calls|
    requires Expected(calls[m].call).Some? && Expected(calls[m].call) == Expected(calls[n].call)
    requires calls[m].call.id == calls[n].call.id
    requires forall k :: 0 <= k <= n ==> RevisionCountsAt(calls, k, calls[n].call.id, env)
    ensures !(ReplyTo(calls, m, env).Ok? && ReplyTo(calls, n, env).Ok?)
  {
    hide Step, After, DecisionGuard, RevisionCountsAt, CountGuardAt;
    var id := calls[n].call.id;
    RevisionCountsThroughoutIff(calls, n, id, env);
    CountingMovesOn(calls, n, id, env);
    OneDecisionPerRevision(calls, m, n, env);
  }

  // ----------------------------------------------------------------------------
  // Preflights that do not overlap
  // ----------------------------------------------------------------------------

  /** A preflight that finishes on the row it read meets every guard. */
  lemma UndisturbedPreflightIsSafe(s: System, t: TimedCall, id: string, env: Env)
    requires Finishes(s, t, id) && Seen(s, t).preflightRevision == RevisionOf(s, id)
    requires Seen(s, t).status == s.db.intents[id].status
    ensures CountGuard(s, t, id) && RiseGuard(s, t, id)
    ensures GateHolds(s, id) ==> GateGuard(s, t, id)
    ensures CleanGateHolds(s, id) ==> CleanGateGuard(s, t, id)
  {
  }
}
