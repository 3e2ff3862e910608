/** Dispatches against the kill switch, over every interleaving of operators, readers,
    claimers and dispatchers. A dispatcher looks at the gate in one step and records its
    attempt in a later one; what the gate has become in between it does not ask. */
module DispatchRuns {
  import opened Common
  import opened Audit
  import opened Governance
  import opened ExecutionLock
  import opened ExecutionLockRuns
  import opened Dispatch

  /** `looked` are the dispatchers that found the gate unlocked and have not gone on yet. */
  datatype Floor = Floor(world: World, looked: set<nat>, attempts: seq<Attempt>)

  datatype Move =
    | GateStep(step: Step)
    | Look(dispatcher: nat, pick: nat, faulty: bool)
    | Submit(dispatcher: nat, pick: nat, submission: Submission, stamp: string)

  predicate ActiveOk(g: Gate, pick: nat)
  {
    AnyOpen(g.windows) ==> IsActive(g.windows, pick)
  }

  function DeskOf(f: Floor): Desk
  {
    Desk(f.world.gate, f.attempts)
  }

  /** Whether the dispatcher goes on: it has looked, and the pick is the database's. */
  predicate GoesOn(f: Floor, mv: Move)
  {
    mv.Submit? && mv.dispatcher in f.looked && ActiveOk(f.world.gate, mv.pick)
  }

  function Submitted(f: Floor, mv: Move, h: Digest): (Desk, PrepareReply)
    requires GoesOn(f, mv)
  {
    Prepare(DeskOf(f), mv.submission, mv.pick, Instant(f.world.now, mv.stamp), h)
  }

  ghost function Act(f: Floor, mv: Move, setup: Setup): Floor
  {
    match mv
    case GateStep(s) => f.(world := Do(f.world, s, setup.enabled, setup.digest))
    case Look(d, pick, faulty) =>
      if !PickOk(f.world.gate, pick) then f
      else
        var (g, r) := Inspect(f.world.gate, pick, setup.enabled, faulty, f.world.now);
        f.(world := f.world.(gate := g), looked := if r.locked then f.looked - {d} else f.looked + {d})
    case Submit(d, _, _, _) =>
      if !GoesOn(f, mv) then f
      else
        var (desk, _) := Submitted(f, mv, setup.digest);
        Floor(f.world.(gate := desk.gate), f.looked - {d}, desk.attempts)
  }

  /** The move records an attempt. */
  predicate Starts(f: Floor, mv: Move, h: Digest)
  {
    GoesOn(f, mv) && Submitted(f, mv, h).1.Prepared?
  }

  // ----------------------------------------------------------------------------
  // The gate keeps its invariant
  // ----------------------------------------------------------------------------

  lemma SubmitKeepsInv(f: Floor, mv: Move, setup: Setup)
    requires Inv(f.world, setup.digest) && GoesOn(f, mv)
    ensures Inv(Act(f, mv, setup).world, setup.digest)
    ensures Act(f, mv, setup).world.gate.lock == f.world.gate.lock
  {
    hide Append, ClaimSlot, SlotTaken, WindowsOk, TicketOk, RowLinked, SubmissionEntry, Extends;
    var w, w', h := f.world, Act(f, mv, setup).world, setup.digest;
    var ws := w.gate.windows;
    AppendValid(w.gate.ledger, SubmissionEntry(mv.submission, mv.stamp), h);
    NothingHappened(ws, w.gate.lock, w.now, w.now);
    if AnyOpen(ws) {
      ClaimSlotOk(ws, w.gate.lock, ws[mv.pick].id, w.now, w.now);
    }
    TicketsSurvive(w.tickets, ws, w'.gate.windows, w.now, w.now);
  }

  lemma LookKeepsInv(f: Floor, mv: Move, setup: Setup)
    requires Inv(f.world, setup.digest) && mv.Look?
    ensures Inv(Act(f, mv, setup).world, setup.digest)
    ensures Act(f, mv, setup).world.gate.lock == f.world.gate.lock
  {
    hide Inv, Inspect;
    StepKeepsInv(f.world, StatusRead(mv.pick, mv.faulty), setup.enabled, setup.digest);
    if PickOk(f.world.gate, mv.pick) {
      InspectKeepsLock(f.world.gate, mv.pick, setup.enabled, mv.faulty, f.world.now);
    }
  }

  lemma InspectKeepsLock(g: Gate, pick: nat, enabled: bool, faulty: bool, now: int)
    requires PickOk(g, pick)
    ensures Inspect(g, pick, enabled, faulty, now).0.lock == g.lock
    ensures !Inspect(g, pick, enabled, faulty, now).1.locked ==> g.lock == Unlocked
  {
  }

  lemma ActKeepsInv(f: Floor, mv: Move, setup: Setup)
    requires Inv(f.world, setup.digest)
    ensures Inv(Act(f, mv, setup).world, setup.digest)
  {
    hide Inv, Inspect, Prepare, Do;
    match mv
    case GateStep(s) => StepKeepsInv(f.world, s, setup.enabled, setup.digest);
    case Look(_, _, _) => LookKeepsInv(f, mv, setup);
    case Submit(_, _, _, _) => if GoesOn(f, mv) { SubmitKeepsInv(f, mv, setup); }
  }

  ghost function FloorAfter(moves: seq<Move>, n: nat, setup: Setup): Floor
    requires n <= |moves|
  {
    if n == 0 then Floor(World(Seeded(setup.digest), setup.start, map[]), {}, [])
    else Act(FloorAfter(moves, n - 1, setup), moves[n - 1], setup)
  }

  lemma {:induction false} FloorInv(moves: seq<Move>, n: nat, setup: Setup)
    requires n <= |moves|
    ensures Inv(FloorAfter(moves, n, setup).world, setup.digest)
  {
    hide Inv, Act;
    if n == 0 {
      SeededInv(setup.start, setup.digest);
    } else {
      FloorInv(moves, n - 1, setup);
      ActKeepsInv(FloorAfter(moves, n - 1, setup), moves[n - 1], setup);
    }
  }

  // ----------------------------------------------------------------------------
  // What a dispatcher that has looked meets
  // ----------------------------------------------------------------------------

  /** In every reachable state: a dispatcher that goes on is refused exactly when a window is
      open past its time, takes a slot exactly when one is open within it, and goes on
      without a slot exactly when none is open. */
  lemma SubmissionMeets(moves: seq<Move>, n: nat, mv: Move, setup: Setup)
    requires n <= |moves| && GoesOn(FloorAfter(moves, n, setup), mv)
    ensures var f := FloorAfter(moves, n, setup);
            var ws, r := f.world.gate.windows, Submitted(f, mv, setup.digest).1;
            && (r == Prepared(None) <==> !AnyOpen(ws))
            && (r.Refused? <==> AnyOpen(ws) && f.world.now >= ws[|ws| - 1].expiresAt)
            && (AnyOpen(ws) && r.Prepared? ==> r == Prepared(Some(ws[|ws| - 1].id)) && f.world.gate.lock == Unlocked)
  {
    hide ValidChain, TicketOk, Append, SubmissionEntry, FloorAfter, ClaimSlot;
    FloorInv(moves, n, setup);
    var f := FloorAfter(moves, n, setup);
    var ws := f.world.gate.windows;
    if AnyOpen(ws) {
      var k := mv.pick;
      assert k == |ws| - 1 && WindowOk(ws[k], f.world.now);
      assert Claimable(ws[k], ws[k].id, f.world.now) <==> f.world.now < ws[k].expiresAt;
      assert forall i :: 0 <= i < |ws| && ws[i].id == ws[k].id ==> i == k;
    }
  }

  /** A lock never stops a dispatcher that has looked: it closes the window, and without an
      open window the dispatcher goes on without a slot. */
  lemma LockNeverStopsALooker(moves: seq<Move>, n: nat, mv: Move, setup: Setup)
    requires n <= |moves| && GoesOn(FloorAfter(moves, n, setup), mv)
    requires FloorAfter(moves, n, setup).world.gate.lock == Locked
    ensures Submitted(FloorAfter(moves, n, setup), mv, setup.digest).1 == Prepared(None)
  {
    hide ValidChain, TicketOk, FloorAfter, Prepare;
    FloorInv(moves, n, setup);
    SubmissionMeets(moves, n, mv, setup);
  }

  // ----------------------------------------------------------------------------
  // Exactly when the lock is an emergency stop
  // ----------------------------------------------------------------------------

  ghost predicate UnlocksAt(moves: seq<Move>, i: nat, setup: Setup)
    requires i < |moves|
  {
    moves[i].GateStep? && Unlocks(FloorAfter(moves, i, setup).world, moves[i].step, setup.digest)
  }

  ghost predicate LooksAt(moves: seq<Move>, i: nat, d: nat, setup: Setup)
    requires i < |moves|
  {
    moves[i].Look? && moves[i].dispatcher == d && PickOk(FloorAfter(moves, i, setup).world.gate, moves[i].pick)
  }

  /** An operator locked at `j`; up to `n` nobody has unlocked and `d` has not looked again. */
  ghost predicate LockStands(moves: seq<Move>, j: nat, n: nat, d: nat, setup: Setup)
    requires n <= |moves|
  {
    && j < n && moves[j].GateStep? && moves[j].step.OperatorLocks?
    && forall i :: j < i < n ==> !UnlocksAt(moves, i, setup) && !LooksAt(moves, i, d, setup)
  }

  ghost predicate LockedBehind(moves: seq<Move>, n: nat, d: nat, setup: Setup)
    requires n <= |moves|
  {
    exists j: nat :: LockStands(moves, j, n, d, setup)
  }

  lemma LockedBehindNext(moves: seq<Move>, n: nat, d: nat, setup: Setup)
    requires n < |moves|
    ensures LockedBehind(moves, n + 1, d, setup) <==>
            || (moves[n].GateStep? && moves[n].step.OperatorLocks?)
            || (LockedBehind(moves, n, d, setup) && !UnlocksAt(moves, n, setup) && !LooksAt(moves, n, d, setup))
  {
    hide FloorAfter, UnlocksAt, LooksAt;
    if LockedBehind(moves, n + 1, d, setup) {
      var j: nat :| LockStands(moves, j, n + 1, d, setup);
      if j < n {
        assert LockStands(moves, j, n, d, setup);
      }
    }
    if moves[n].GateStep? && moves[n].step.OperatorLocks? {
      assert LockStands(moves, n, n + 1, d, setup);
    } else if LockedBehind(moves, n, d, setup) && !UnlocksAt(moves, n, setup) && !LooksAt(moves, n, d, setup) {
      var j: nat :| LockStands(moves, j, n, d, setup);
      assert LockStands(moves, j, n + 1, d, setup);
    }
  }

  lemma LockRowAfter(w: World, s: Step, enabled: bool, h: Digest)
    ensures Do(w, s, enabled, h).gate.lock ==
            if s.OperatorLocks? then Locked else if Unlocks(w, s, h) then Unlocked else w.gate.lock
  {
    hide ValidChain, HasPermission, Append, CloseOpen, ExpireStale, ClaimSlot, IsLatest, HasWindow, UnlockEntry;
  }

  /** For a dispatcher that has looked, the lock row says locked exactly when an operator
      locked behind its back and nobody has unlocked since. */
  lemma {:induction false} LookedLockIff(moves: seq<Move>, n: nat, d: nat, setup: Setup)
    requires n <= |moves| && d in FloorAfter(moves, n, setup).looked
    ensures FloorAfter(moves, n, setup).world.gate.lock == Locked <==> LockedBehind(moves, n, d, setup)
  {
    hide Do, Unlocks, Inspect, Prepare, LockedBehind, ActiveOk, Inv;
    if n > 0 {
      var f, mv := FloorAfter(moves, n - 1, setup), moves[n - 1];
      FloorInv(moves, n - 1, setup);
      LockedBehindNext(moves, n - 1, d, setup);
      match mv
      case GateStep(s) =>
        LookedLockIff(moves, n - 1, d, setup);
        LockRowAfter(f.world, s, setup.enabled, setup.digest);
        NotBoth(f.world, s, setup.digest);
      case Look(e, pick, faulty) =>
        if PickOk(f.world.gate, pick) {
          InspectKeepsLock(f.world.gate, pick, setup.enabled, faulty, f.world.now);
        }
        if !LooksAt(moves, n - 1, d, setup) {
          LookedLockIff(moves, n - 1, d, setup);
        }
      case Submit(_, _, _, _) =>
        LookedLockIff(moves, n - 1, d, setup);
        if GoesOn(f, mv) {
          SubmitKeepsInv(f, mv, setup);
        }
    }
  }

  lemma NotBoth(w: World, s: Step, h: Digest)
    ensures !(s.OperatorLocks? && Unlocks(w, s, h))
  {
  }

  /** No attempt starts at `k` while the lock row says locked. */
  ghost predicate StoppedAt(moves: seq<Move>, k: nat, setup: Setup)
    requires k < |moves|
  {
    var f := FloorAfter(moves, k, setup);
    Starts(f, moves[k], setup.digest) ==> f.world.gate.lock == Unlocked
  }

  /** No dispatcher goes on at `k` behind whose back the gate was locked and not unlocked. */
  ghost predicate UndisturbedAt(moves: seq<Move>, k: nat, setup: Setup)
    requires k < |moves|
  {
    GoesOn(FloorAfter(moves, k, setup), moves[k]) ==> !LockedBehind(moves, k, moves[k].dispatcher, setup)
  }

  lemma StoppedIff(moves: seq<Move>, k: nat, setup: Setup)
    requires k < |moves|
    ensures StoppedAt(moves, k, setup) <==> UndisturbedAt(moves, k, setup)
  {
    hide FloorAfter, LockedBehind, Prepare, ActiveOk;
    var f, mv := FloorAfter(moves, k, setup), moves[k];
    if GoesOn(f, mv) {
      LookedLockIff(moves, k, mv.dispatcher, setup);
      if f.world.gate.lock == Locked {
        LockNeverStopsALooker(moves, k, mv, setup);
      }
    }
  }

  /** Over every history: locking is an emergency stop for dispatches, in that none starts
      while the lock row says locked, exactly when no dispatcher goes on after a lock fell
      between its look and its submission. */
  lemma EmergencyStopIff(moves: seq<Move>, n: nat, setup: Setup)
    requires n <= |moves|
    ensures (forall k :: 0 <= k < n ==> StoppedAt(moves, k, setup))
      <==> (forall k :: 0 <= k < n ==> UndisturbedAt(moves, k, setup))
  {
    hide StoppedAt, UndisturbedAt;
    forall k | 0 <= k < n ensures StoppedAt(moves, k, setup) <==> UndisturbedAt(moves, k, setup) {
      StoppedIff(moves, k, setup);
    }
  }

  // ----------------------------------------------------------------------------
  // Budgets
  // ----------------------------------------------------------------------------

  /** The attempts that took their slot from the window. */
  function Slotted(attempts: seq<Attempt>, id: string): nat
  {
    if attempts == [] then 0
    else Slotted(attempts[..|attempts| - 1], id) + if attempts[|attempts| - 1].slot == Some(id) then 1 else 0
  }

  lemma SlottedNext(attempts: seq<Attempt>, a: Attempt, id: string)
    ensures Slotted(attempts + [a], id) == Slotted(attempts, id) + if a.slot == Some(id) then 1 else 0
  {
    assert (attempts + [a])[..|attempts|] == attempts;
  }

  lemma SubmitConsumes(f: Floor, mv: Move, id: string, setup: Setup)
    requires Inv(f.world, setup.digest) && GoesOn(f, mv)
    ensures var f' := Act(f, mv, setup);
            ConsumedUnder(f'.world.gate.windows, id) - Slotted(f'.attempts, id)
            == ConsumedUnder(f.world.gate.windows, id) - Slotted(f.attempts, id)
  {
    hide Append, ValidChain, ConsumedUnder, Slotted, WindowOk, TicketOk, SubmissionEntry, ClaimSlot, SlotTaken;
    var ws := f.world.gate.windows;
    if AnyOpen(ws) {
      ConsumedClaimed(ws, ws[mv.pick].id, f.world.now, id);
      SlottedNext(f.attempts, Attempt(mv.submission.attemptId, Some(ws[mv.pick].id)), id);
    } else {
      SlottedNext(f.attempts, Attempt(mv.submission.attemptId, None), id);
    }
  }

  lemma LookConsumes(f: Floor, mv: Move, id: string, setup: Setup)
    requires Inv(f.world, setup.digest) && mv.Look?
    ensures ConsumedUnder(Act(f, mv, setup).world.gate.windows, id) == ConsumedUnder(f.world.gate.windows, id)
  {
    hide Inspect, Inv, ConsumedUnder;
    StepConsumes(f.world, StatusRead(mv.pick, mv.faulty), id, setup.enabled, setup.digest);
  }

  lemma {:induction false} SlottedIsConsumed(moves: seq<Move>, n: nat, id: string, setup: Setup)
    requires n <= |moves|
    ensures var f := FloorAfter(moves, n, setup); Slotted(f.attempts, id) <= ConsumedUnder(f.world.gate.windows, id)
  {
    hide Do, Inspect, Prepare, Inv, Takes, Slotted, ConsumedUnder, ActiveOk;
    if n == 0 {
      NothingSlotted(id);
    } else {
      var f, mv := FloorAfter(moves, n - 1, setup), moves[n - 1];
      FloorInv(moves, n - 1, setup);
      SlottedIsConsumed(moves, n - 1, id, setup);
      match mv
      case GateStep(s) => StepConsumes(f.world, s, id, setup.enabled, setup.digest);
      case Look(_, _, _) => LookConsumes(f, mv, id, setup);
      case Submit(_, _, _, _) => if GoesOn(f, mv) { SubmitConsumes(f, mv, id, setup); }
    }
  }

  lemma NothingSlotted(id: string)
    ensures Slotted([], id) == 0 && ConsumedUnder([], id) == 0
  {
  }

  /** However dispatchers and claimers interleave, the attempts that took a slot of a window
      stay within its budget. */
  lemma SlottedWithinBudget(moves: seq<Move>, n: nat, i: nat, setup: Setup)
    requires n <= |moves| && i < |FloorAfter(moves, n, setup).world.gate.windows|
    ensures var f := FloorAfter(moves, n, setup);
            Slotted(f.attempts, f.world.gate.windows[i].id) <= f.world.gate.windows[i].maxExecutions <= MAX_BUDGET
  {
    hide FloorAfter, Slotted, ValidChain, TicketOk;
    FloorInv(moves, n, setup);
    var w := FloorAfter(moves, n, setup).world;
    SlottedIsConsumed(moves, n, w.gate.windows[i].id, setup);
    ConsumedOf(w.gate.windows, i);
    assert WindowOk(w.gate.windows[i], w.now);
  }

  ghost predicate OpenAt(moves: seq<Move>, k: nat, setup: Setup)
    requires k < |moves|
  {
    var f := FloorAfter(moves, k, setup);
    GoesOn(f, moves[k]) ==> AnyOpen(f.world.gate.windows)
  }

  predicate AllSlotted(attempts: seq<Attempt>)
  {
    forall i :: 0 <= i < |attempts| ==> attempts[i].slot.Some?
  }

  lemma AllSlottedNext(moves: seq<Move>, n: nat, setup: Setup)
    requires n < |moves|
    ensures AllSlotted(FloorAfter(moves, n + 1, setup).attempts)
       <==> AllSlotted(FloorAfter(moves, n, setup).attempts) && OpenAt(moves, n, setup)
  {
    hide FloorAfter, Do, Inspect, Append, SubmissionEntry, FinishClaim, AnyOpen, ActiveOk, PickOk;
    var f, f', mv := FloorAfter(moves, n, setup), FloorAfter(moves, n + 1, setup), moves[n];
    FloorStep(moves, n, setup);
    if Starts(f, mv, setup.digest) {
      var a := f'.attempts[|f.attempts|];
      assert f'.attempts == f.attempts + [a];
      assert a.slot.Some? <==> AnyOpen(f.world.gate.windows);
      SlottedAppend(f.attempts, a);
    }
  }

  lemma SlottedAppend(attempts: seq<Attempt>, a: Attempt)
    ensures AllSlotted(attempts + [a]) <==> AllSlotted(attempts) && a.slot.Some?
  {
    var all := attempts + [a];
    assert all[|attempts|] == a && forall i :: 0 <= i < |attempts| ==> all[i] == attempts[i];
  }

  lemma FloorStep(moves: seq<Move>, n: nat, setup: Setup)
    requires n < |moves|
    ensures FloorAfter(moves, n + 1, setup) == Act(FloorAfter(moves, n, setup), moves[n], setup)
  {
    hide Act;
  }

  /** Over every history: each attempt took a slot, so that budgets bound the dispatches too,
      exactly when a window was open whenever a dispatcher went on. */
  lemma {:induction false} AllSlottedIff(moves: seq<Move>, n: nat, setup: Setup)
    requires n <= |moves|
    ensures AllSlotted(FloorAfter(moves, n, setup).attempts) <==> forall k :: 0 <= k < n ==> OpenAt(moves, k, setup)
  {
    hide Act, OpenAt, AllSlotted;
    if n == 0 {
      NoneSlotless();
    } else {
      AllSlottedIff(moves, n - 1, setup);
      AllSlottedNext(moves, n - 1, setup);
    }
  }

  lemma NoneSlotless()
    ensures AllSlotted([])
  {
  }
}
