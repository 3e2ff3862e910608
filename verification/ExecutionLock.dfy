/** The execution kill switch: a persistent lock row, windows with a budget and a
    lifetime, and the audit trail of every change to them. */
module ExecutionLock {
  import opened Common
  import opened Audit
  import opened Governance

  datatype LockStatus = Locked | Unlocked

  datatype WindowState = Open | Exhausted | Closed | Expired

  datatype Window = Window(
    id: string, openedAt: int, expiresAt: int, maxExecutions: int, consumed: int, state: WindowState)

  /** The lock row, the windows in the order they were inserted, and the ledger. */
  datatype Gate = Gate(lock: LockStatus, windows: seq<Window>, ledger: Ledger)

  const REQUIRED_PHRASE := "UNLOCK TASK EXECUTION"
  const LOCK_MANAGE := "execution.lock.manage"
  const LOCK_RESOURCE := "execution_lock:global_dispatch"
  const MAX_TTL_MINUTES := 30
  const MAX_BUDGET := 10

  /** The system as migrations leave it: locked, without any window. */
  function Seeded(h: Digest): Gate
  {
    Gate(Locked, [], Genesis(h))
  }

  // ----------------------------------------------------------------------------
  // Statements on the window table
  // ----------------------------------------------------------------------------

  /** Ordering by opening time, newest first, leaves ties to the database. */
  predicate IsLatest(ws: seq<Window>, k: nat)
  {
    k < |ws| && forall i :: 0 <= i < |ws| ==> ws[i].openedAt <= ws[k].openedAt
  }

  lemma {:induction false} LatestExists(ws: seq<Window>)
    requires ws != []
    ensures exists k :: IsLatest(ws, k)
  {
    var n := |ws| - 1;
    if n == 0 {
      assert IsLatest(ws, 0);
    } else {
      LatestExists(ws[..n]);
      var k :| IsLatest(ws[..n], k);
      assert forall i :: 0 <= i < n ==> ws[i] == ws[..n][i];
      assert IsLatest(ws, k) || IsLatest(ws, n);
    }
  }

  function CloseOpen(ws: seq<Window>): (r: seq<Window>)
    ensures |r| == |ws|
  {
    seq(|ws|, i requires 0 <= i < |ws| => if ws[i].state == Open then ws[i].(state := Closed) else ws[i])
  }

  function ExpireStale(ws: seq<Window>, now: int): (r: seq<Window>)
    ensures |r| == |ws|
  {
    seq(|ws|, i requires 0 <= i < |ws| =>
      if ws[i].state == Open && ws[i].expiresAt <= now then ws[i].(state := Expired) else ws[i])
  }

  predicate Claimable(w: Window, id: string, now: int)
  {
    w.id == id && w.state == Open && w.consumed < w.maxExecutions && w.expiresAt > now
  }

  function ClaimSlot(ws: seq<Window>, id: string, now: int): (r: seq<Window>)
    ensures |r| == |ws|
  {
    seq(|ws|, i requires 0 <= i < |ws| =>
      if Claimable(ws[i], id, now)
      then ws[i].(consumed := ws[i].consumed + 1,
                  state := if ws[i].consumed + 1 >= ws[i].maxExecutions then Exhausted else Open)
      else ws[i])
  }

  /** Whether the conditional update hit a row; the identifier is the primary key. */
  predicate SlotTaken(ws: seq<Window>, id: string, now: int)
  {
    exists i :: 0 <= i < |ws| && Claimable(ws[i], id, now)
  }

  predicate HasWindow(ws: seq<Window>, id: string)
  {
    exists i :: 0 <= i < |ws| && ws[i].id == id
  }

  // ----------------------------------------------------------------------------
  // The service's operations, on values
  // ----------------------------------------------------------------------------

  datatype Why =
    | EnvironmentDisabled | InspectionFailed | PersistentlyLocked | BudgetSpent | WindowOver | WindowTimedOut
    | WindowActive | NoWindow

  datatype Report = Report(locked: bool, why: Why, window: Option<Window>)

  /** The effective status; `k` is the window the database returns as the latest, `faulty`
      says that it raises instead, which reads as locked. */
  function Inspect(g: Gate, k: nat, enabled: bool, faulty: bool, now: int): (Gate, Report)
    requires g.windows != [] ==> k < |g.windows|
  {
    if !enabled then (g, Report(true, EnvironmentDisabled, None))
    else if faulty then (g, Report(true, InspectionFailed, None))
    else if g.lock != Unlocked then (g, Report(true, PersistentlyLocked, None))
    else if g.windows == [] then (g, Report(false, NoWindow, None))
    else
      var w := g.windows[k];
      if w.state == Exhausted || w.consumed >= w.maxExecutions then (g, Report(true, BudgetSpent, Some(w)))
      else if w.state in {Closed, Expired} then (g, Report(true, WindowOver, Some(w)))
      else if now >= w.expiresAt then
        (g.(windows := ExpireStale(g.windows, now)), Report(true, WindowTimedOut, Some(w)))
      else (g, Report(false, WindowActive, Some(w)))
  }

  datatype UnlockRequest = UnlockRequest(
    actor: Principal, actorLabel: string, phrase: string, reason: string, ttlMinutes: int, maxExecutions: int,
    windowId: string, correlationId: string, eventId: string)

  datatype LockRequest = LockRequest(
    actor: Principal, actorLabel: string, reason: string, correlationId: string, eventId: string)

  datatype UnlockError = NotAuthorized | WrongPhrase | ReasonRequired | AuditCompromised | UpdateFailed

  datatype UnlockReply = Opened(window: Window) | Denied(error: UnlockError)

  function Clamp(lo: int, hi: int, x: int): int
  {
    var capped := if x < hi then x else hi;
    if capped > lo then capped else lo
  }

  function NewWindow(r: UnlockRequest, now: int): Window
  {
    Window(r.windowId, now, now + 60 * Clamp(1, MAX_TTL_MINUTES, r.ttlMinutes),
           Clamp(1, MAX_BUDGET, r.maxExecutions), 0, Open)
  }

  function UnlockEntry(r: UnlockRequest, stamp: string): Entry
  {
    Entry(r.eventId, stamp, r.actor.id, "execution.unlocked", LOCK_RESOURCE, "SUCCESS",
          Some("Execution unlocked by operator: " + Strip(r.reason) + " (TTL: "
               + IntText(Clamp(1, MAX_TTL_MINUTES, r.ttlMinutes)) + "m, budget: "
               + IntText(Clamp(1, MAX_BUDGET, r.maxExecutions)) + ")"),
          None, None,
          Unhashed("USER", r.actorLabel, "SYSTEM", "Execution Window " + r.windowId, r.correlationId, 1))
  }

  function LockEntry(r: LockRequest, stamp: string): Entry
  {
    Entry(r.eventId, stamp, r.actor.id, "execution.locked", LOCK_RESOURCE, "SUCCESS", Some(Strip(r.reason)),
          None, None, Unhashed("USER", r.actorLabel, "SYSTEM", "Global Dispatch Lock", r.correlationId, 1))
  }

  /** Opens a fresh window in place of any open one. A window identifier that already
      exists makes the transaction roll back. */
  ghost function Unlock(g: Gate, r: UnlockRequest, at: Instant, h: Digest): (Gate, UnlockReply)
  {
    if !HasPermission(r.actor, LOCK_MANAGE) then (g, Denied(NotAuthorized))
    else if Strip(r.phrase) != REQUIRED_PHRASE then (g, Denied(WrongPhrase))
    else if Strip(r.reason) == "" then (g, Denied(ReasonRequired))
    else if !ValidChain(g.ledger, h) then (g, Denied(AuditCompromised))
    else if HasWindow(g.windows, r.windowId) then (g, Denied(UpdateFailed))
    else
      var w := NewWindow(r, at.now);
      (Gate(Unlocked, CloseOpen(g.windows) + [w], Append(g.ledger, UnlockEntry(r, at.stamp), h)), Opened(w))
  }

  /** Locking asks for no permission, phrase or reason. */
  function Lock(g: Gate, r: LockRequest, at: Instant, h: Digest): Gate
  {
    Gate(Locked, CloseOpen(g.windows), Append(g.ledger, LockEntry(r, at.stamp), h))
  }

  datatype ClaimReply = Claimed(windowId: string) | NothingOpen | NoBudget | TimedOut

  /** The reading half of a claim: the window to try, or why there is none. */
  function BeginClaim(g: Gate, k: nat, now: int): (Gate, ClaimReply)
    requires g.windows != [] ==> k < |g.windows|
  {
    if g.windows == [] || g.windows[k].state == Closed then (g, NothingOpen)
    else
      var w := g.windows[k];
      if w.state == Exhausted || w.consumed >= w.maxExecutions then (g, NoBudget)
      else if now >= w.expiresAt then (g.(windows := ExpireStale(g.windows, now)), TimedOut)
      else (g, Claimed(w.id))
  }

  /** The writing half: one conditional update. */
  function FinishClaim(g: Gate, id: string, now: int): (Gate, ClaimReply)
  {
    (g.(windows := ClaimSlot(g.windows, id, now)), if SlotTaken(g.windows, id, now) then Claimed(id) else NoBudget)
  }

  function Claim(g: Gate, k: nat, now: int): (Gate, ClaimReply)
    requires g.windows != [] ==> k < |g.windows|
  {
    var (g1, r) := BeginClaim(g, k, now);
    if r.Claimed? then FinishClaim(g1, r.windowId, now) else (g1, r)
  }

  // ----------------------------------------------------------------------------
  // The service object
  // ----------------------------------------------------------------------------

  class ExecutionLockService {
    const digest: Digest
    const executionEnabled: bool
    var lock: LockStatus
    var windows: seq<Window>
    var ledger: Ledger

    function State(): Gate
      reads this
    {
      Gate(lock, windows, ledger)
    }

    constructor (digest: Digest, executionEnabled: bool)
      ensures this.digest == digest && this.executionEnabled == executionEnabled
      ensures State() == Seeded(digest)
    {
      this.digest, this.executionEnabled := digest, executionEnabled;
      lock, windows, ledger := Locked, [], Genesis(digest);
    }

    method LatestWindow() returns (k: nat)
      ensures windows != [] ==> IsLatest(windows, k)
    {
      k := 0;
      if windows != [] {
        LatestExists(windows);
        k :| k < |windows| && IsLatest(windows, k);
      }
    }

    /** `k` is the window the database chose among the latest. */
    method GetEffectiveStatus(now: int, faulty: bool) returns (r: Report, k: nat)
      modifies this`windows
      ensures old(windows) != [] ==> IsLatest(old(windows), k)
      ensures (State(), r) == Inspect(old(State()), k, executionEnabled, faulty, now)
    {
      k := LatestWindow();
      if !executionEnabled {
        return Report(true, EnvironmentDisabled, None), k;
      }
      if faulty {
        return Report(true, InspectionFailed, None), k;
      }
      if lock != Unlocked {
        return Report(true, PersistentlyLocked, None), k;
      }
      if windows == [] {
        return Report(false, NoWindow, None), k;
      }
      var w := windows[k];
      if w.state == Exhausted || w.consumed >= w.maxExecutions {
        return Report(true, BudgetSpent, Some(w)), k;
      }
      if w.state in {Closed, Expired} {
        return Report(true, WindowOver, Some(w)), k;
      }
      if now >= w.expiresAt {
        windows := ExpireStale(windows, now);
        return Report(true, WindowTimedOut, Some(w)), k;
      }
      r := Report(false, WindowActive, Some(w));
    }

    method UnlockExecution(r: UnlockRequest, at: Instant) returns (reply: UnlockReply)
      modifies this
      ensures (State(), reply) == Unlock(old(State()), r, at, digest)
    {
      hide HasPermission, ValidChain, Append, UnlockEntry;
      if !HasPermission(r.actor, LOCK_MANAGE) {
        return Denied(NotAuthorized);
      }
      if Strip(r.phrase) != REQUIRED_PHRASE {
        return Denied(WrongPhrase);
      }
      if Strip(r.reason) == "" {
        return Denied(ReasonRequired);
      }
      var verdict := VerifyChain(ledger, digest);
      if !verdict.Intact? {
        return Denied(AuditCompromised);
      }
      var boundedTtl := Clamp(1, MAX_TTL_MINUTES, r.ttlMinutes);
      var boundedMax := Clamp(1, MAX_BUDGET, r.maxExecutions);
      var w := Window(r.windowId, at.now, at.now + 60 * boundedTtl, boundedMax, 0, Open);
      var savedLock, savedWindows := lock, windows;
      windows := CloseOpen(windows);
      lock := Unlocked;
      assert HasWindow(windows, w.id) <==> HasWindow(savedWindows, w.id) by {
        assert forall i :: 0 <= i < |windows| ==> windows[i].id == savedWindows[i].id;
      }
      if HasWindow(windows, w.id) {
        // The insert would violate the primary key: the transaction rolls back.
        lock, windows := savedLock, savedWindows;
        return Denied(UpdateFailed);
      }
      windows := windows + [w];
      ledger := AppendRecord(ledger, UnlockEntry(r, at.stamp), digest);
      reply := Opened(w);
    }

    method LockExecution(r: LockRequest, at: Instant)
      modifies this
      ensures State() == Lock(old(State()), r, at, digest)
    {
      hide Append;
      windows := CloseOpen(windows);
      lock := Locked;
      ledger := AppendRecord(ledger, LockEntry(r, at.stamp), digest);
    }

    method ClaimExecutionSlot(now: int) returns (r: ClaimReply, k: nat)
      modifies this`windows
      ensures old(windows) != [] ==> IsLatest(old(windows), k)
      ensures (State(), r) == Claim(old(State()), k, now)
    {
      k := LatestWindow();
      if windows == [] || windows[k].state == Closed {
        return NothingOpen, k;
      }
      var w := windows[k];
      if w.state == Exhausted || w.consumed >= w.maxExecutions {
        return NoBudget, k;
      }
      if now >= w.expiresAt {
        windows := ExpireStale(windows, now);
        return TimedOut, k;
      }
      var claimed := SlotTaken(windows, w.id, now);
      windows := ClaimSlot(windows, w.id, now);
      r := if claimed then Claimed(w.id) else NoBudget;
    }
  }
}
