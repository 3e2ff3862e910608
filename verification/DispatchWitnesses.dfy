/** Histories in which dispatches escape the kill switch: one starts under a lock, and any
    number of them under a budget of one. */
module DispatchWitnesses {
  import opened Common
  import opened Audit
  import opened Governance
  import opened ExecutionLock
  import opened ExecutionLockRuns
  import opened Dispatch
  import opened DispatchRuns

  const ADMIN := Principal("admin", ["admin"], [])
  const OPENING := UnlockRequest(ADMIN, "admin", REQUIRED_PHRASE, "work", 1, 1, "window", "", "")
  const CLOSING := LockRequest(ADMIN, "admin", "stop", "", "")

  function SubmissionOf(d: nat): Submission
  {
    Submission(IntText(d), "", "", "", "", 1, "", "", "", "")
  }

  function Looking(d: nat): Move
  {
    Look(d, 0, false)
  }

  function Going(d: nat): Move
  {
    Submit(d, 0, SubmissionOf(d), "")
  }

  /** The gate as the opening leaves it, with so many slots of its one window taken. */
  predicate Opened(f: Floor, consumed: int, start: int)
  {
    && f.world.now == start && f.world.gate.lock == Unlocked
    && var state := if consumed < 1 then Open else Exhausted;
       f.world.gate.windows == [Window("window", start, start + 60, 1, consumed, state)]
  }

  lemma Opens(setup: Setup)
    ensures var f := FloorAfter([GateStep(OperatorUnlocks(OPENING, ""))], 1, setup);
            Opened(f, 0, setup.start) && f.looked == {} && f.attempts == []
  {
    hide Append, ValidChain, UnlockEntry;
    var seeded := FloorAfter([GateStep(OperatorUnlocks(OPENING, ""))], 0, setup);
    GenesisValid(setup.digest);
    assert Strip(REQUIRED_PHRASE) == REQUIRED_PHRASE;
    assert Strip("work") == "work";
    assert CloseOpen([]) == [];
  }

  lemma LookFinds(f: Floor, d: nat, setup: Setup)
    requires setup.enabled && Opened(f, 0, setup.start)
    ensures Act(f, Looking(d), setup) == f.(looked := f.looked + {d})
  {
    assert IsLatest(f.world.gate.windows, 0);
  }

  // ----------------------------------------------------------------------------
  // A dispatch under a lock
  // ----------------------------------------------------------------------------

  /** The gate opens, a dispatcher looks, an operator locks, the dispatcher goes on. */
  function LateLock(): seq<Move>
  {
    [GateStep(OperatorUnlocks(OPENING, "")), Looking(0), GateStep(OperatorLocks(CLOSING, "")), Going(0)]
  }

  lemma LockCloses(f: Floor, setup: Setup)
    requires Opened(f, 0, setup.start)
    ensures var f' := Act(f, GateStep(OperatorLocks(CLOSING, "")), setup);
            && f'.looked == f.looked && f'.attempts == f.attempts
            && f'.world.gate.lock == Locked && !AnyOpen(f'.world.gate.windows)
  {
    hide Append, LockEntry;
  }

  lemma GoingSlotless(f: Floor, d: nat, setup: Setup)
    requires d in f.looked && !AnyOpen(f.world.gate.windows)
    ensures var f' := Act(f, Going(d), setup);
            && f'.attempts == f.attempts + [Attempt(IntText(d), None)] && f'.looked == f.looked - {d}
            && f'.world.gate.lock == f.world.gate.lock && f'.world.gate.windows == f.world.gate.windows
            && f'.world.now == f.world.now
  {
    hide Append, SubmissionEntry, IntText;
  }

  lemma {:induction false} FloorPrefix(a: seq<Move>, b: seq<Move>, n: nat, setup: Setup)
    requires n <= |a| && n <= |b| && a[..n] == b[..n]
    ensures FloorAfter(a, n, setup) == FloorAfter(b, n, setup)
  {
    hide Act;
    if n > 0 {
      assert a[..n - 1] == a[..n][..n - 1] && b[..n - 1] == b[..n][..n - 1];
      assert a[n - 1] == a[..n][n - 1] && b[n - 1] == b[..n][n - 1];
      FloorPrefix(a, b, n - 1, setup);
    }
  }

  /** From the seeded state: an attempt starts, without a slot, after the operator locked. */
  lemma DispatchAfterLock(setup: Setup)
    requires setup.enabled
    ensures var f := FloorAfter(LateLock(), 4, setup);
            f.world.gate.lock == Locked && f.attempts == [Attempt(IntText(0), None)]
    ensures Starts(FloorAfter(LateLock(), 3, setup), LateLock()[3], setup.digest)
    ensures FloorAfter(LateLock(), 3, setup).world.gate.lock == Locked
  {
    hide Act, Opened, FloorAfter, IntText, AnyOpen, Append, SubmissionEntry;
    var moves := LateLock();
    Opens(setup);
    FloorPrefix([GateStep(OperatorUnlocks(OPENING, ""))], moves, 1, setup);
    FloorStep(moves, 1, setup);
    LookFinds(FloorAfter(moves, 1, setup), 0, setup);
    SameGateOpened(FloorAfter(moves, 1, setup), FloorAfter(moves, 2, setup), 0, setup.start);
    FloorStep(moves, 2, setup);
    LockCloses(FloorAfter(moves, 2, setup), setup);
    FloorStep(moves, 3, setup);
    GoingSlotless(FloorAfter(moves, 3, setup), 0, setup);
  }

  lemma SameGateOpened(f: Floor, f': Floor, consumed: int, start: int)
    requires Opened(f, consumed, start) && f'.world == f.world
    ensures Opened(f', consumed, start)
  {
  }

  // ----------------------------------------------------------------------------
  // Any number of dispatches under a budget of one
  // ----------------------------------------------------------------------------

  /** The gate opens with one slot, `n` dispatchers look, and the first `e` of them go on. */
  function Rush(n: nat, e: nat): seq<Move>
  {
    if e > 0 then Rush(n, e - 1) + [Going(e - 1)]
    else if n > 0 then Rush(n - 1, 0) + [Looking(n - 1)]
    else [GateStep(OperatorUnlocks(OPENING, ""))]
  }

  predicate Rushed(f: Floor, n: nat, e: nat, start: int)
  {
    && Opened(f, if e == 0 then 0 else 1, start) && |f.attempts| == e
    && forall d: nat :: e <= d < n ==> d in f.looked
  }

  lemma RushLast(moves: seq<Move>, mv: Move, setup: Setup)
    ensures FloorAfter(moves + [mv], |moves| + 1, setup) == Act(FloorAfter(moves, |moves|, setup), mv, setup)
  {
    hide Act;
    FloorPrefix(moves, moves + [mv], |moves|, setup);
  }

  lemma GoingRushed(f: Floor, n: nat, e: nat, setup: Setup)
    requires e < n && Rushed(f, n, e, setup.start)
    ensures Rushed(Act(f, Going(e), setup), n, e + 1, setup.start)
  {
    hide Append, SubmissionEntry, IntText;
    var ws := f.world.gate.windows;
    if e == 0 {
      assert AnyOpen(ws) && IsActive(ws, 0);
      assert Claimable(ws[0], "window", f.world.now);
      assert ClaimSlot(ws, "window", f.world.now) ==
             [Window("window", setup.start, setup.start + 60, 1, 1, Exhausted)];
    } else {
      GoingSlotless(f, e, setup);
    }
  }

  lemma LookingRushed(f: Floor, n: nat, setup: Setup)
    requires setup.enabled && Rushed(f, n, 0, setup.start)
    ensures Rushed(Act(f, Looking(n), setup), n + 1, 0, setup.start)
  {
    hide Act;
    LookFinds(f, n, setup);
  }

  lemma {:induction false} RushRun(n: nat, e: nat, setup: Setup)
    requires setup.enabled && e <= n
    ensures Rushed(FloorAfter(Rush(n, e), |Rush(n, e)|, setup), n, e, setup.start)
    decreases n, e
  {
    hide Act, Rushed, FloorAfter;
    if e > 0 {
      RushRun(n, e - 1, setup);
      RushLast(Rush(n, e - 1), Going(e - 1), setup);
      GoingRushed(FloorAfter(Rush(n, e - 1), |Rush(n, e - 1)|, setup), n, e - 1, setup);
    } else if n > 0 {
      RushRun(n - 1, 0, setup);
      RushLast(Rush(n - 1, 0), Looking(n - 1), setup);
      LookingRushed(FloorAfter(Rush(n - 1, 0), |Rush(n - 1, 0)|, setup), n - 1, setup);
    } else {
      RushStart(setup);
    }
  }

  lemma RushStart(setup: Setup)
    ensures Rushed(FloorAfter(Rush(0, 0), 1, setup), 0, 0, setup.start)
  {
    hide FloorAfter;
    Opens(setup);
  }

  /** For every number there is a history in which that many attempts start although the one
      window ever opened has a budget of one. */
  lemma BudgetDoesNotBoundDispatches(n: nat, setup: Setup)
    requires setup.enabled
    ensures var f := FloorAfter(Rush(n, n), |Rush(n, n)|, setup);
            |f.attempts| == n && |f.world.gate.windows| == 1 && f.world.gate.windows[0].maxExecutions == 1
  {
    hide FloorAfter;
    RushRun(n, n, setup);
  }
}
