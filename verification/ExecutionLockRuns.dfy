/** The kill switch over every interleaving of operators, status readers and claimers,
    where a claimer looks at a window in one step and takes a slot in a later one. */
module ExecutionLockRuns {
  import opened Common
  import opened Audit
  import opened Governance
  import opened ExecutionLock

  /** What a claimer remembers between its two steps. */
  datatype Ticket = Ticket(windowId: string, at: int)

  datatype World = World(gate: Gate, now: int, tickets: map<nat, Ticket>)

  /** `pick` is the database's choice of a latest window. */
  datatype Step =
    | Tick(seconds: nat)
    | OperatorUnlocks(request: UnlockRequest, stamp: string)
    | OperatorLocks(order: LockRequest, stamp: string)
    | StatusRead(pick: nat, faulty: bool)
    | ClaimBegins(claimer: nat, pick: nat)
    | ClaimFinishes(claimer: nat)
    | OtherAudit(entry: Entry)

  predicate PickOk(g: Gate, pick: nat)
  {
    g.windows == [] || IsLatest(g.windows, pick)
  }

  /** One step; a pick the database would not make leaves the world as it is. */
  ghost function Do(w: World, s: Step, enabled: bool, h: Digest): World
  {
    match s
    case Tick(seconds) => w.(now := w.now + seconds)
    case OperatorUnlocks(r, stamp) => w.(gate := Unlock(w.gate, r, Instant(w.now, stamp), h).0)
    case OperatorLocks(r, stamp) => w.(gate := Lock(w.gate, r, Instant(w.now, stamp), h))
    case StatusRead(pick, faulty) =>
      if PickOk(w.gate, pick) then w.(gate := Inspect(w.gate, pick, enabled, faulty, w.now).0) else w
    case ClaimBegins(c, pick) =>
      if !PickOk(w.gate, pick) then w
      else
        var (g, r) := BeginClaim(w.gate, pick, w.now);
        World(g, w.now, if r.Claimed? then w.tickets[c := Ticket(r.windowId, w.now)] else w.tickets - {c})
    case ClaimFinishes(c) =>
      if c in w.tickets
      then World(FinishClaim(w.gate, w.tickets[c].windowId, w.tickets[c].at).0, w.now, w.tickets - {c})
      else w
    case OtherAudit(e) => w.(gate := w.gate.(ledger := Append(w.gate.ledger, e, h)))
  }

  /** Whether the step takes a slot of the window. */
  predicate Takes(w: World, s: Step, id: string)
  {
    && s.ClaimFinishes? && s.claimer in w.tickets && w.tickets[s.claimer].windowId == id
    && FinishClaim(w.gate, id, w.tickets[s.claimer].at).1 == Claimed(id)
  }

  ghost predicate Unlocks(w: World, s: Step, h: Digest)
  {
    s.OperatorUnlocks? && Unlock(w.gate, s.request, Instant(w.now, s.stamp), h).1.Opened?
  }

  // ----------------------------------------------------------------------------
  // The invariant
  // ----------------------------------------------------------------------------

  predicate WindowOk(w: Window, now: int)
  {
    && w.openedAt <= now && 60 <= w.expiresAt - w.openedAt <= 60 * MAX_TTL_MINUTES
    && 1 <= w.maxExecutions <= MAX_BUDGET && 0 <= w.consumed <= w.maxExecutions
    && (w.state == Exhausted <==> w.consumed == w.maxExecutions)
    && (w.state == Expired ==> w.expiresAt <= now)
  }

  predicate UniqueWindowIds(ws: seq<Window>)
  {
    forall i, j :: 0 <= i < j < |ws| ==> ws[i].id != ws[j].id
  }

  predicate WindowsOk(ws: seq<Window>, lock: LockStatus, now: int)
  {
    && (forall i :: 0 <= i < |ws| ==> WindowOk(ws[i], now))
    && (forall i, j :: 0 <= i < j < |ws| ==> ws[i].openedAt <= ws[j].openedAt)
    && UniqueWindowIds(ws)
    && (forall i :: 0 <= i < |ws| && ws[i].state == Open ==> i == |ws| - 1 && lock == Unlocked)
    && (lock == Unlocked ==> ws != [])
  }

  /** A ticket was written while its window was within its lifetime. */
  predicate TicketOk(t: Ticket, ws: seq<Window>, now: int)
  {
    && t.at <= now
    && exists i :: 0 <= i < |ws| && ws[i].id == t.windowId && ws[i].openedAt <= t.at < ws[i].expiresAt
  }

  ghost predicate Inv(w: World, h: Digest)
  {
    && WindowsOk(w.gate.windows, w.gate.lock, w.now)
    && (forall c :: c in w.tickets ==> TicketOk(w.tickets[c], w.gate.windows, w.now))
    && ValidChain(w.gate.ledger, h)
  }

  /** The same windows, whatever became of them, possibly with new ones after them. */
  predicate Extends(ws: seq<Window>, ws': seq<Window>)
  {
    && |ws| <= |ws'|
    && forall i :: 0 <= i < |ws| ==>
         && ws'[i].id == ws[i].id && ws'[i].openedAt == ws[i].openedAt && ws'[i].expiresAt == ws[i].expiresAt
         && ws'[i].maxExecutions == ws[i].maxExecutions
         && (ws'[i].state == Open ==> ws[i].state == Open)
  }

  // ----------------------------------------------------------------------------
  // Every step keeps it
  // ----------------------------------------------------------------------------

  lemma TicketsSurvive(tickets: map<nat, Ticket>, ws: seq<Window>, ws': seq<Window>, now: int, now': int)
    requires now <= now' && Extends(ws, ws')
    requires forall c :: c in tickets ==> TicketOk(tickets[c], ws, now)
    ensures forall c :: c in tickets ==> TicketOk(tickets[c], ws', now')
  {
    forall c | c in tickets ensures TicketOk(tickets[c], ws', now') {
      var i :| 0 <= i < |ws| && ws[i].id == tickets[c].windowId && ws[i].openedAt <= tickets[c].at < ws[i].expiresAt;
      assert ws'[i].id == tickets[c].windowId;
    }
  }

  lemma CloseOpenOk(ws: seq<Window>, lock: LockStatus, now: int)
    requires WindowsOk(ws, lock, now)
    ensures Extends(ws, CloseOpen(ws)) && WindowsOk(CloseOpen(ws), Locked, now)
    ensures forall i :: 0 <= i < |ws| ==> CloseOpen(ws)[i].state != Open
  {
  }

  lemma ExpireStaleOk(ws: seq<Window>, lock: LockStatus, now: int)
    requires WindowsOk(ws, lock, now)
    ensures Extends(ws, ExpireStale(ws, now)) && WindowsOk(ExpireStale(ws, now), lock, now)
  {
  }

  lemma ClaimSlotOk(ws: seq<Window>, lock: LockStatus, id: string, at: int, now: int)
    requires WindowsOk(ws, lock, now)
    ensures Extends(ws, ClaimSlot(ws, id, at)) && WindowsOk(ClaimSlot(ws, id, at), lock, now)
  {
  }

  lemma OpenedOk(ws: seq<Window>, lock: LockStatus, r: UnlockRequest, now: int)
    requires WindowsOk(ws, lock, now) && !HasWindow(ws, r.windowId)
    ensures Extends(ws, CloseOpen(ws) + [NewWindow(r, now)])
    ensures WindowsOk(CloseOpen(ws) + [NewWindow(r, now)], Unlocked, now)
  {
    CloseOpenOk(ws, lock, now);
    var ws' := CloseOpen(ws) + [NewWindow(r, now)];
    assert forall i :: 0 <= i < |ws| ==> ws'[i] == CloseOpen(ws)[i] && ws'[i].id == ws[i].id;
    assert WindowOk(ws'[|ws|], now);
  }

  lemma BeginClaimTicket(w: World, s: Step, enabled: bool, h: Digest)
    requires WindowsOk(w.gate.windows, w.gate.lock, w.now) && s.ClaimBegins? && PickOk(w.gate, s.pick)
    ensures var w' := Do(w, s, enabled, h);
            s.claimer in w'.tickets ==> TicketOk(w'.tickets[s.claimer], w'.gate.windows, w.now)
  {
    var w' := Do(w, s, enabled, h);
    if s.claimer in w'.tickets {
      assert w'.gate.windows == w.gate.windows && w'.tickets[s.claimer].windowId == w.gate.windows[s.pick].id;
    }
  }

  lemma GateStepOk(w: World, s: Step, enabled: bool, h: Digest)
    requires Inv(w, h)
    ensures var w' := Do(w, s, enabled, h);
            && WindowsOk(w'.gate.windows, w'.gate.lock, w'.now) && Extends(w.gate.windows, w'.gate.windows)
            && w.now <= w'.now
  {
    hide ValidChain, HasPermission, Append, CloseOpen, ExpireStale, ClaimSlot, WindowsOk, Extends, NewWindow, HasWindow;
    var ws, lock := w.gate.windows, w.gate.lock;
    NothingHappened(ws, lock, w.now, Do(w, s, enabled, h).now);
    CloseOpenOk(ws, lock, w.now);
    ExpireStaleOk(ws, lock, w.now);
    match s
    case OperatorUnlocks(r, stamp) => if !HasWindow(ws, r.windowId) { OpenedOk(ws, lock, r, w.now); }
    case ClaimFinishes(c) => if c in w.tickets { ClaimSlotOk(ws, lock, w.tickets[c].windowId, w.tickets[c].at, w.now); }
    case _ =>
  }

  lemma NothingHappened(ws: seq<Window>, lock: LockStatus, now: int, now': int)
    requires WindowsOk(ws, lock, now)
    ensures Extends(ws, ws) && (now <= now' ==> WindowsOk(ws, lock, now'))
  {
  }

  lemma LedgerStepOk(w: World, s: Step, enabled: bool, h: Digest)
    requires ValidChain(w.gate.ledger, h)
    ensures ValidChain(Do(w, s, enabled, h).gate.ledger, h)
  {
    hide HasPermission, Append, CloseOpen, ExpireStale, ClaimSlot, UnlockEntry, LockEntry, RowLinked;
    match s
    case OperatorUnlocks(r, stamp) => AppendValid(w.gate.ledger, UnlockEntry(r, stamp), h);
    case OperatorLocks(r, stamp) => AppendValid(w.gate.ledger, LockEntry(r, stamp), h);
    case OtherAudit(e) => AppendValid(w.gate.ledger, e, h);
    case _ =>
  }

  lemma StepKeepsInv(w: World, s: Step, enabled: bool, h: Digest)
    requires Inv(w, h)
    ensures Inv(Do(w, s, enabled, h), h)
  {
    hide ValidChain, HasPermission, Append, CloseOpen, ExpireStale, ClaimSlot, WindowsOk, Extends, TicketOk;
    hide IsLatest, Unlock, Lock;
    var w' := Do(w, s, enabled, h);
    GateStepOk(w, s, enabled, h);
    LedgerStepOk(w, s, enabled, h);
    TicketsSurvive(w.tickets, w.gate.windows, w'.gate.windows, w.now, w'.now);
    if s.ClaimBegins? && PickOk(w.gate, s.pick) {
      BeginClaimTicket(w, s, enabled, h);
    }
  }

  // ----------------------------------------------------------------------------
  // Runs
  // ----------------------------------------------------------------------------

  /** When a run starts, whether the environment allows execution, and the ledger's digest. */
  datatype Setup = Setup(start: int, enabled: bool, digest: Digest)

  /** The world after the first `n` steps of a run from the seeded, locked state. */
  ghost function After(steps: seq<Step>, n: nat, setup: Setup): World
    requires n <= |steps|
  {
    if n == 0 then World(Seeded(setup.digest), setup.start, map[])
    else Do(After(steps, n - 1, setup), steps[n - 1], setup.enabled, setup.digest)
  }

  lemma {:induction false} AfterInv(steps: seq<Step>, n: nat, setup: Setup)
    requires n <= |steps|
    ensures Inv(After(steps, n, setup), setup.digest)
  {
    hide Do, Inv;
    if n == 0 {
      SeededInv(setup.start, setup.digest);
    } else {
      AfterInv(steps, n - 1, setup);
      StepKeepsInv(After(steps, n - 1, setup), steps[n - 1], setup.enabled, setup.digest);
    }
  }

  lemma SeededInv(start: int, h: Digest)
    ensures Inv(World(Seeded(h), start, map[]), h)
  {
    hide CanonicalOf;
    GenesisValid(h);
  }

  /** How many slots of a window the first `n` steps have taken. */
  ghost function SlotsTaken(steps: seq<Step>, n: nat, id: string, setup: Setup): nat
    requires n <= |steps|
  {
    if n == 0 then 0
    else
      SlotsTaken(steps, n - 1, id, setup)
      + if Takes(After(steps, n - 1, setup), steps[n - 1], id) then 1 else 0
  }

  /** What the table says has been consumed under an identifier. */
  function ConsumedUnder(ws: seq<Window>, id: string): int
  {
    if ws == [] then 0
    else ConsumedUnder(ws[..|ws| - 1], id) + if ws[|ws| - 1].id == id then ws[|ws| - 1].consumed else 0
  }

  lemma {:induction false} ConsumedUnchanged(ws: seq<Window>, ws': seq<Window>, id: string)
    requires |ws| == |ws'|
    requires forall i :: 0 <= i < |ws| ==> ws'[i].id == ws[i].id && ws'[i].consumed == ws[i].consumed
    ensures ConsumedUnder(ws', id) == ConsumedUnder(ws, id)
  {
    if ws != [] {
      var n := |ws| - 1;
      ConsumedUnchanged(ws[..n], ws'[..n], id);
    }
  }

  lemma {:induction false} ConsumedClaimed(ws: seq<Window>, taken: string, at: int, id: string)
    requires UniqueWindowIds(ws)
    ensures ConsumedUnder(ClaimSlot(ws, taken, at), id)
         == ConsumedUnder(ws, id) + if id == taken && SlotTaken(ws, taken, at) then 1 else 0
  {
    if ws != [] {
      var n := |ws| - 1;
      ConsumedClaimed(ws[..n], taken, at, id);
      assert ClaimSlot(ws, taken, at)[..n] == ClaimSlot(ws[..n], taken, at);
      assert forall i :: 0 <= i < n ==> ws[..n][i] == ws[i];
      assert SlotTaken(ws, taken, at) <==> SlotTaken(ws[..n], taken, at) || Claimable(ws[n], taken, at);
      assert !(SlotTaken(ws[..n], taken, at) && Claimable(ws[n], taken, at)) by {
        assert forall i :: 0 <= i < n ==> ws[i].id != ws[n].id;
      }
    }
  }

  lemma {:induction false} ConsumedOf(ws: seq<Window>, i: nat)
    requires i < |ws| && UniqueWindowIds(ws)
    ensures ConsumedUnder(ws, ws[i].id) == ws[i].consumed
  {
    var n := |ws| - 1;
    if i < n {
      ConsumedOf(ws[..n], i);
    } else {
      ConsumedAbsent(ws[..n], ws[n].id);
    }
  }

  lemma {:induction false} ConsumedAbsent(ws: seq<Window>, id: string)
    requires !HasWindow(ws, id)
    ensures ConsumedUnder(ws, id) == 0
  {
    if ws != [] {
      var n := |ws| - 1;
      assert forall i :: 0 <= i < n ==> ws[..n][i] == ws[i];
      ConsumedAbsent(ws[..n], id);
    }
  }

  lemma StepConsumes(w: World, s: Step, id: string, enabled: bool, h: Digest)
    requires Inv(w, h)
    ensures ConsumedUnder(Do(w, s, enabled, h).gate.windows, id)
         == ConsumedUnder(w.gate.windows, id) + if Takes(w, s, id) then 1 else 0
  {
    hide ValidChain, HasPermission, Append, IsLatest, ConsumedUnder, HasWindow, TicketOk, WindowOk;
    var ws, ws' := w.gate.windows, Do(w, s, enabled, h).gate.windows;
    if s.ClaimFinishes? && s.claimer in w.tickets {
      ConsumedClaimed(ws, w.tickets[s.claimer].windowId, w.tickets[s.claimer].at, id);
    } else if |ws'| == |ws| {
      ConsumedUnchanged(ws, ws', id);
    } else {
      assert ws'[..|ws|] == CloseOpen(ws);
      ConsumedUnchanged(ws, CloseOpen(ws), id);
      NewWindowUnspent(ws', id);
    }
  }

  lemma NewWindowUnspent(ws: seq<Window>, id: string)
    requires ws != [] && ws[|ws| - 1].consumed == 0
    ensures ConsumedUnder(ws, id) == ConsumedUnder(ws[..|ws| - 1], id)
  {
  }

  // ----------------------------------------------------------------------------
  // What the kill switch guarantees
  // ----------------------------------------------------------------------------

  /** Conservation: the table's count under an identifier is the number of slots the
      run has actually handed out under it. */
  lemma {:induction false} ConsumedCountsClaims(steps: seq<Step>, n: nat, id: string, setup: Setup)
    requires n <= |steps|
    ensures ConsumedUnder(After(steps, n, setup).gate.windows, id) == SlotsTaken(steps, n, id, setup)
  {
    hide Do, Takes, Inv;
    if n > 0 {
      AfterInv(steps, n - 1, setup);
      ConsumedCountsClaims(steps, n - 1, id, setup);
      StepConsumes(After(steps, n - 1, setup), steps[n - 1], id, setup.enabled, setup.digest);
    }
  }

  /** However claimers interleave, a window hands out at most its budget, which is at
      most ten, and it is exhausted exactly when it has handed out all of it. */
  lemma BudgetNeverExceeded(steps: seq<Step>, n: nat, i: nat, setup: Setup)
    requires n <= |steps| && i < |After(steps, n, setup).gate.windows|
    ensures var w := After(steps, n, setup).gate.windows[i];
            && SlotsTaken(steps, n, w.id, setup) == w.consumed <= w.maxExecutions <= MAX_BUDGET
            && (w.state == Exhausted <==> SlotsTaken(steps, n, w.id, setup) == w.maxExecutions)
  {
    AfterInv(steps, n, setup);
    var ws := After(steps, n, setup).gate.windows;
    ConsumedCountsClaims(steps, n, ws[i].id, setup);
    ConsumedOf(ws, i);
    assert WindowOk(ws[i], After(steps, n, setup).now);
  }

  /** Only the most recently opened window can be open, and only while unlocked. */
  lemma AtMostOneOpen(steps: seq<Step>, n: nat, setup: Setup)
    requires n <= |steps|
    ensures var g := After(steps, n, setup).gate;
            forall i :: 0 <= i < |g.windows| && g.windows[i].state == Open ==>
              i == |g.windows| - 1 && g.lock == Unlocked
  {
    AfterInv(steps, n, setup);
  }

  lemma TicketWindow(t: Ticket, ws: seq<Window>, now: int)
    requires TicketOk(t, ws, now)
    ensures exists i :: 0 <= i < |ws| && ws[i].id == t.windowId && ws[i].openedAt <= t.at < ws[i].expiresAt
  {
  }

  /** A pending claim is granted exactly when its window is still open: the recheck of
      budget and lifetime never adds anything, because the lifetime is measured at the
      time the claimer looked. */
  lemma ClaimGrantedIff(steps: seq<Step>, n: nat, c: nat, setup: Setup)
    requires n <= |steps| && c in After(steps, n, setup).tickets
    ensures var w := After(steps, n, setup);
            var id, ws := w.tickets[c].windowId, w.gate.windows;
            && (Takes(w, ClaimFinishes(c), id) <==> exists i :: 0 <= i < |ws| && ws[i].id == id && ws[i].state == Open)
            && (Takes(w, ClaimFinishes(c), id) ==>
                  && w.gate.lock == Unlocked && ws != [] && ws[|ws| - 1].id == id
                  && ws[|ws| - 1].openedAt <= w.tickets[c].at < ws[|ws| - 1].expiresAt)
  {
    hide ValidChain, After, TicketOk, ClaimSlot;
    AfterInv(steps, n, setup);
    var w := After(steps, n, setup);
    var t, ws := w.tickets[c], w.gate.windows;
    TicketWindow(t, ws, w.now);
    var k :| 0 <= k < |ws| && ws[k].id == t.windowId && ws[k].openedAt <= t.at < ws[k].expiresAt;
    assert WindowOk(ws[k], w.now);
    assert Takes(w, ClaimFinishes(c), t.windowId) <==> SlotTaken(ws, t.windowId, t.at);
    assert ws[k].state == Open <==> Claimable(ws[k], t.windowId, t.at);
    assert forall i :: 0 <= i < |ws| && ws[i].id == t.windowId ==> i == k;
  }

  /** Read and write in one go, a claim is granted exactly within an open window's lifetime. */
  lemma AtomicClaimIff(steps: seq<Step>, n: nat, k: nat, setup: Setup)
    requires n <= |steps| && PickOk(After(steps, n, setup).gate, k)
    ensures var w := After(steps, n, setup);
            Claim(w.gate, k, w.now).1.Claimed?
            <==> w.gate.windows != [] && w.gate.windows[k].state == Open && w.now < w.gate.windows[k].expiresAt
  {
    hide ValidChain, TicketOk;
    AfterInv(steps, n, setup);
    var w := After(steps, n, setup);
    var ws := w.gate.windows;
    if ws != [] {
      assert WindowOk(ws[k], w.now);
      assert Claimable(ws[k], ws[k].id, w.now) <==> ws[k].state == Open && w.now < ws[k].expiresAt;
      assert forall i :: 0 <= i < |ws| && ws[i].id == ws[k].id ==> i == k;
    }
  }

  /** Nobody is let in while the lock is on, not even a claimer who looked before. */
  lemma LockedGrantsNothing(w: World, s: Step, id: string, h: Digest)
    requires Inv(w, h) && w.gate.lock == Locked
    ensures !Takes(w, s, id)
  {
  }

  lemma OnlyUnlockUnlocks(w: World, s: Step, enabled: bool, h: Digest)
    requires !Unlocks(w, s, h) && w.gate.lock == Locked
    ensures Do(w, s, enabled, h).gate.lock == Locked
  {
    hide ValidChain, HasPermission, Append, CloseOpen, ExpireStale, ClaimSlot, IsLatest;
  }

  lemma {:induction false} StaysLocked(steps: seq<Step>, m: nat, n: nat, setup: Setup)
    requires m <= n <= |steps| && After(steps, m, setup).gate.lock == Locked
    requires forall i :: m <= i < n ==> !Unlocks(After(steps, i, setup), steps[i], setup.digest)
    ensures After(steps, n, setup).gate.lock == Locked
    decreases n - m
  {
    hide Do, Inv, Unlocks;
    if m < n {
      StaysLocked(steps, m, n - 1, setup);
      OnlyUnlockUnlocks(After(steps, n - 1, setup), steps[n - 1], setup.enabled, setup.digest);
    }
  }

  /** Emergency stop: from a lock to the next successful unlock no slot is taken and the
      status reads locked, whoever had looked at a window before. */
  lemma NoSlotAfterLock(steps: seq<Step>, m: nat, n: nat, id: string, pick: nat, faulty: bool, setup: Setup)
    requires m < n < |steps| && steps[m].OperatorLocks?
    requires forall i :: m < i < n ==> !Unlocks(After(steps, i, setup), steps[i], setup.digest)
    ensures !Takes(After(steps, n, setup), steps[n], id)
    ensures var w := After(steps, n, setup);
            PickOk(w.gate, pick) ==> Inspect(w.gate, pick, setup.enabled, faulty, w.now).1.locked
  {
    hide Inv, Unlocks, Takes, CloseOpen, Append;
    assert After(steps, m + 1, setup).gate.lock == Locked;
    StaysLocked(steps, m + 1, n, setup);
    AfterInv(steps, n, setup);
    LockedGrantsNothing(After(steps, n, setup), steps[n], id, setup.digest);
  }

  /** The gate reads unlocked exactly when the environment allows it and the window
      consulted is open and unexpired; then the lock row is unlocked, the window is the
      newest one, has budget left, and is named in the report. */
  lemma GateOpenIff(steps: seq<Step>, n: nat, pick: nat, faulty: bool, setup: Setup)
    requires n <= |steps| && PickOk(After(steps, n, setup).gate, pick)
    ensures var w := After(steps, n, setup);
            var (g, r) := Inspect(w.gate, pick, setup.enabled, faulty, w.now);
            && (!r.locked <==> setup.enabled && !faulty && w.gate.windows != [] && w.gate.windows[pick].state == Open
                               && w.now < w.gate.windows[pick].expiresAt)
            && (!r.locked ==>
                  && g == w.gate && r.why == WindowActive && w.gate.lock == Unlocked && pick == |w.gate.windows| - 1
                  && r.window == Some(w.gate.windows[pick])
                  && r.window.value.consumed < r.window.value.maxExecutions)
  {
    hide ValidChain, TicketOk;
    AfterInv(steps, n, setup);
    var w := After(steps, n, setup);
    if w.gate.windows != [] {
      assert WindowOk(w.gate.windows[pick], w.now);
    }
  }

  /** The branch that reports an unlocked gate without any window is never taken. */
  lemma NeverUnlockedWithoutWindow(steps: seq<Step>, n: nat, pick: nat, faulty: bool, setup: Setup)
    requires n <= |steps| && PickOk(After(steps, n, setup).gate, pick)
    ensures var w := After(steps, n, setup); Inspect(w.gate, pick, setup.enabled, faulty, w.now).1.why != NoWindow
  {
    AfterInv(steps, n, setup);
  }

  /** What the gate says is what a claim made at the same moment finds. */
  lemma StatusAgreesWithClaim(steps: seq<Step>, n: nat, pick: nat, setup: Setup)
    requires n <= |steps| && setup.enabled && PickOk(After(steps, n, setup).gate, pick)
    ensures var w := After(steps, n, setup);
            Claim(w.gate, pick, w.now).1.Claimed? <==> !Inspect(w.gate, pick, true, false, w.now).1.locked
  {
    hide After, Inspect, Claim;
    AtomicClaimIff(steps, n, pick, setup);
    GateOpenIff(steps, n, pick, false, setup);
  }

  lemma StepWindows(w: World, s: Step, enabled: bool, h: Digest)
    requires Inv(w, h)
    ensures Extends(w.gate.windows, Do(w, s, enabled, h).gate.windows) && w.now <= Do(w, s, enabled, h).now
    ensures !Unlocks(w, s, h) ==> |Do(w, s, enabled, h).gate.windows| == |w.gate.windows|
  {
    hide ValidChain, HasPermission, Append, CloseOpen, ExpireStale, ClaimSlot, WindowsOk, Extends, IsLatest;
    GateStepOk(w, s, enabled, h);
  }

  lemma {:induction false} WindowsWithoutUnlock(steps: seq<Step>, m: nat, n: nat, setup: Setup)
    requires m <= n <= |steps|
    requires forall i :: m <= i < n ==> !Unlocks(After(steps, i, setup), steps[i], setup.digest)
    ensures var ws, ws' := After(steps, m, setup).gate.windows, After(steps, n, setup).gate.windows;
            |ws'| == |ws| && forall i :: 0 <= i < |ws| ==> ws'[i].expiresAt == ws[i].expiresAt
    decreases n - m
  {
    hide Do, Inv, Unlocks;
    if m < n {
      WindowsWithoutUnlock(steps, m, n - 1, setup);
      AfterInv(steps, n - 1, setup);
      StepWindows(After(steps, n - 1, setup), steps[n - 1], setup.enabled, setup.digest);
    }
  }

  /** Automatic relock: once thirty minutes have passed without a successful unlock the
      gate reads locked, whatever was requested, consumed or read in between. */
  lemma RelocksByItself(steps: seq<Step>, m: nat, n: nat, pick: nat, faulty: bool, setup: Setup)
    requires m <= n <= |steps|
    requires forall i :: m <= i < n ==> !Unlocks(After(steps, i, setup), steps[i], setup.digest)
    requires After(steps, n, setup).now >= After(steps, m, setup).now + 60 * MAX_TTL_MINUTES
    requires PickOk(After(steps, n, setup).gate, pick)
    ensures var w := After(steps, n, setup); Inspect(w.gate, pick, setup.enabled, faulty, w.now).1.locked
  {
    hide Do, Unlocks;
    AfterInv(steps, m, setup);
    WindowsWithoutUnlock(steps, m, n, setup);
    var v, w := After(steps, m, setup), After(steps, n, setup);
    GateOpenIff(steps, n, pick, faulty, setup);
    if w.gate.windows != [] {
      assert WindowOk(v.gate.windows[pick], v.now);
    }
  }

  /** In every reachable state the ledger verifies, so an unlock succeeds exactly with
      authority, the phrase, a reason and a fresh identifier. */
  lemma UnlockSucceedsIff(steps: seq<Step>, n: nat, r: UnlockRequest, stamp: string, setup: Setup)
    requires n <= |steps|
    ensures var w := After(steps, n, setup);
            Unlocks(w, OperatorUnlocks(r, stamp), setup.digest)
            <==> && HasPermission(r.actor, LOCK_MANAGE) && Strip(r.phrase) == REQUIRED_PHRASE
                 && Strip(r.reason) != "" && !HasWindow(w.gate.windows, r.windowId)
  {
    hide HasPermission, Append, ValidChain, Strip, HasWindow, WindowsOk, TicketOk;
    AfterInv(steps, n, setup);
  }
}
