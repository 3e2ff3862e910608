/** The dispatch coordinator where it meets the kill switch: the transaction that takes a
    slot, if a window is open, and records the attempt before the executor is called. */
module Dispatch {
  import opened Common
  import opened Audit
  import opened ExecutionLock

  /** What the coordinator knows of the intent it dispatches, and the identifiers it draws. */
  datatype Submission = Submission(
    attemptId: string, authorizationId: string, taskId: string, intentId: string, payloadHash: string,
    revision: int, actorId: string, actorLabel: string, correlationId: string, eventId: string)

  /** A recorded attempt, with the window its slot is from if it took one. */
  datatype Attempt = Attempt(id: string, slot: Option<string>)

  datatype Desk = Desk(gate: Gate, attempts: seq<Attempt>)

  datatype PrepareReply = Prepared(slot: Option<string>) | Refused

  predicate AnyOpen(ws: seq<Window>)
  {
    exists i :: 0 <= i < |ws| && ws[i].state == Open
  }

  /** The open window opened last; ties are the database's choice. */
  predicate IsActive(ws: seq<Window>, k: nat)
  {
    && k < |ws| && ws[k].state == Open
    && forall i :: 0 <= i < |ws| && ws[i].state == Open ==> ws[i].openedAt <= ws[k].openedAt
  }

  lemma {:induction false} ActiveExists(ws: seq<Window>)
    requires AnyOpen(ws)
    ensures exists k :: IsActive(ws, k)
  {
    var n := |ws| - 1;
    assert forall i :: 0 <= i < n ==> ws[..n][i] == ws[i];
    if AnyOpen(ws[..n]) {
      ActiveExists(ws[..n]);
      var k :| IsActive(ws[..n], k);
      assert IsActive(ws, k) || IsActive(ws, n);
    } else {
      assert forall i :: 0 <= i < n ==> ws[..n][i].state != Open;
      assert IsActive(ws, n);
    }
  }

  function SubmissionEntry(s: Submission, stamp: string): Entry
  {
    Entry(s.eventId, stamp, s.actorId, "execution.submission_started", s.taskId, "SUCCESS",
          Some("Execution authorization " + s.authorizationId + " claimed and submission initiated"),
          Some(s.intentId), Some(s.payloadHash),
          Unhashed("USER", s.actorLabel, "TASK", "Task " + s.taskId, s.correlationId, s.revision))
  }

  function Recorded(d: Desk, gate: Gate, s: Submission, slot: Option<string>, stamp: string, h: Digest): Desk
  {
    Desk(gate.(ledger := Append(gate.ledger, SubmissionEntry(s, stamp), h)), d.attempts + [Attempt(s.attemptId, slot)])
  }

  /** The preparation; `k` is the active window, if any window is open. It asks the lock
      nothing: with no window open it goes on without a slot. */
  function Prepare(d: Desk, s: Submission, k: nat, at: Instant, h: Digest): (Desk, PrepareReply)
    requires AnyOpen(d.gate.windows) ==> k < |d.gate.windows|
  {
    if !AnyOpen(d.gate.windows) then (Recorded(d, d.gate, s, None, at.stamp, h), Prepared(None))
    else
      var id := d.gate.windows[k].id;
      var (g, claim) := FinishClaim(d.gate, id, at.now);
      if claim.Claimed? then (Recorded(d, g, s, Some(id), at.stamp, h), Prepared(Some(id))) else (d, Refused)
  }

  class TaskDispatchCoordinator {
    const digest: Digest
    var lock: LockStatus
    var windows: seq<Window>
    var ledger: Ledger
    var attempts: seq<Attempt>

    function State(): Desk
      reads this
    {
      Desk(Gate(lock, windows, ledger), attempts)
    }

    constructor (digest: Digest)
      ensures this.digest == digest && State() == Desk(Seeded(digest), [])
    {
      this.digest := digest;
      lock, windows, ledger, attempts := Locked, [], Genesis(digest), [];
    }

    method ActiveWindow() returns (k: Option<nat>)
      ensures k.Some? <==> AnyOpen(windows)
      ensures k.Some? ==> IsActive(windows, k.value)
    {
      if AnyOpen(windows) {
        ActiveExists(windows);
        var found :| 0 <= found < |windows| && IsActive(windows, found);
        return Some(found);
      }
      k := None;
    }

    /** A slot that cannot be claimed rolls the transaction back. */
    method PrepareSubmission(s: Submission, at: Instant) returns (r: PrepareReply, k: nat)
      modifies this
      ensures AnyOpen(old(windows)) ==> IsActive(old(windows), k)
      ensures (State(), r) == Prepare(old(State()), s, k, at, digest)
    {
      hide Append, SubmissionEntry, Claimable;
      var active := ActiveWindow();
      k := if active.Some? then active.value else 0;
      var slot: Option<string> := None;
      if active.Some? {
        var id := windows[k].id;
        var claimed := SlotTaken(windows, id, at.now);
        windows := ClaimSlot(windows, id, at.now);
        if !claimed {
          UnclaimedUnchanged(old(windows), id, at.now);
          return Refused, k;
        }
        slot := Some(id);
      }
      attempts := attempts + [Attempt(s.attemptId, slot)];
      ledger := AppendRecord(ledger, SubmissionEntry(s, at.stamp), digest);
      r := Prepared(slot);
    }
  }

  lemma UnclaimedUnchanged(ws: seq<Window>, id: string, now: int)
    requires !SlotTaken(ws, id, now)
    ensures ClaimSlot(ws, id, now) == ws
  {
  }
}
