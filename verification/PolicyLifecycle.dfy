/** The table of installed policies: applying, rolling back and revoking. */
module PolicyLifecycle {
  import opened Common
  import opened Audit
  import opened ExecutionPolicy
  import opened PolicyRefinement

  /** A stored definition either reads as a policy or does not. */
  datatype Stored = Readable(policy: Policy) | Garbled

  datatype PolicyRow = PolicyRow(stored: Stored, hash: string, active: bool, createdAt: int)

  /** Who changes the policy and why, with the identifiers drawn for it. */
  datatype Note = Note(actorId: string, reason: string, policyId: string, correlationId: string, eventId: string)

  /** The policies and the ledger. */
  datatype Store = Store(rows: seq<PolicyRow>, ledger: Ledger)

  type Fingerprint = Policy -> string

  function Supersede(rows: seq<PolicyRow>): (r: seq<PolicyRow>)
    ensures |r| == |rows|
  {
    seq(|rows|, i requires 0 <= i < |rows| => rows[i].(active := false))
  }

  function Abbreviated(hash: string): string
  {
    if |hash| > 16 then hash[..16] else hash
  }

  function AppliedEntry(p: Policy, hash: string, note: Note, stamp: string): Entry
  {
    Entry(note.eventId, stamp, note.actorId, "execution_policy.applied", note.policyId, "SUCCESS",
          Some(note.reason + " (Hash: " + Abbreviated(hash) + "...)"), None, Some(hash),
          Unhashed("USER", note.actorId, "POLICY", "Execution Policy " + p.version, note.correlationId, 1))
  }

  function Applied(s: Store, p: Policy, note: Note, at: Instant, fingerprint: Fingerprint, h: Digest): Store
  {
    Store(Supersede(s.rows) + [PolicyRow(Readable(p), fingerprint(p), true, at.now)],
          Append(s.ledger, AppliedEntry(p, fingerprint(p), note, at.stamp), h))
  }

  function RevocationNote(note: Note, t: string): Note
  {
    note.(reason := note.reason + ": revoked tool " + t)
  }

  /** An active row no other active row is newer than; ties are the database's choice. */
  predicate IsActiveChoice(rows: seq<PolicyRow>, k: nat)
  {
    && k < |rows| && rows[k].active
    && forall i :: 0 <= i < |rows| && rows[i].active ==> rows[i].createdAt <= rows[k].createdAt
  }

  datatype Lookup = Found(policy: Policy) | Corrupt | Unavailable

  /** A stored policy counts only if it reads and still has its stored hash. */
  function Reading(row: PolicyRow, fingerprint: Fingerprint): Lookup
  {
    match row.stored
    case Garbled => Unavailable
    case Readable(p) => if fingerprint(p) == row.hash then Found(p) else Corrupt
  }

  ghost predicate Current(rows: seq<PolicyRow>, r: Lookup, fingerprint: Fingerprint)
  {
    || (exists k: nat :: IsActiveChoice(rows, k) && r == Reading(rows[k], fingerprint))
    || (r == Found(V1) && forall i :: 0 <= i < |rows| ==> !rows[i].active)
  }

  /** A database error, such as a missing table, reads as the first canonical policy. */
  ghost predicate Looked(rows: seq<PolicyRow>, r: Lookup, faulty: bool, fingerprint: Fingerprint)
  {
    if faulty then r == Found(V1) else Current(rows, r, fingerprint)
  }

  class ExecutionPolicyService {
    const fingerprint: Fingerprint
    const digest: Digest
    var rows: seq<PolicyRow>
    var ledger: Ledger

    function State(): Store
      reads this
    {
      Store(rows, ledger)
    }

    /** Migrations install the first canonical policy. */
    constructor (fingerprint: Fingerprint, digest: Digest, now: int)
      ensures this.fingerprint == fingerprint && this.digest == digest
      ensures State() == Store([PolicyRow(Readable(V1), fingerprint(V1), true, now)], Genesis(digest))
    {
      this.fingerprint, this.digest := fingerprint, digest;
      rows := [PolicyRow(Readable(V1), fingerprint(V1), true, now)];
      ledger := Genesis(digest);
    }

    /** Scans for the newest active row and falls back to the first canonical policy. */
    method GetActivePolicy(faulty: bool) returns (r: Lookup)
      ensures Looked(rows, r, faulty, fingerprint)
    {
      if faulty {
        return Found(V1);
      }
      var best := 0;
      var found := false;
      for i := 0 to |rows|
        invariant found ==> best < i && rows[best].active
        invariant forall j :: 0 <= j < i && rows[j].active ==> found && rows[j].createdAt <= rows[best].createdAt
      {
        if rows[i].active && (!found || rows[i].createdAt > rows[best].createdAt) {
          best, found := i, true;
        }
      }
      if !found {
        return Found(V1);
      }
      assert IsActiveChoice(rows, best);
      if rows[best].stored == Garbled {
        return Unavailable;
      }
      var policy := rows[best].stored.policy;
      var computed := fingerprint(policy);
      if computed != rows[best].hash {
        return Corrupt;
      }
      r := Found(policy);
    }

    method ApplyPolicy(p: Policy, note: Note, at: Instant)
      modifies this
      ensures State() == Applied(old(State()), p, note, at, fingerprint, digest)
    {
      hide Append, AppliedEntry;
      var hash := fingerprint(p);
      rows := Supersede(rows);
      rows := rows + [PolicyRow(Readable(p), hash, true, at.now)];
      ledger := AppendRecord(ledger, AppliedEntry(p, hash, note, at.stamp), digest);
    }

    method RollbackToV1(note: Note, at: Instant)
      modifies this
      ensures State() == Applied(old(State()), V1, note, at, fingerprint, digest)
    {
      ApplyPolicy(V1, note, at);
    }

    /** Answers with the policy read before; one that cannot be had stops the revocation. */
    method RevokeToolCapability(t: string, note: Note, at: Instant, faulty: bool) returns (before: Lookup)
      modifies this
      ensures Looked(old(rows), before, faulty, fingerprint)
      ensures State() == match before
                         case Found(p) =>
                           Applied(old(State()), Revoke(p, t), RevocationNote(note, t), at, fingerprint, digest)
                         case _ => old(State())
    {
      hide Applied, V1;
      before := GetActivePolicy(faulty);
      if !before.Found? {
        return;
      }
      var active := before.policy;
      var currentTools := active.tools;
      if t in currentTools {
        currentTools := Without(currentTools, t);
      } else {
        WithoutAbsent(currentTools, t);
      }
      assert active.(tools := currentTools) == Revoke(active, t);
      ApplyPolicy(active.(tools := currentTools), RevocationNote(note, t), at);
    }
  }

  lemma {:induction false} WithoutAbsent(tools: seq<string>, t: string)
    requires t !in tools
    ensures Without(tools, t) == tools
  {
    if tools != [] {
      WithoutAbsent(tools[1..], t);
      assert tools == [tools[0]] + tools[1..];
    }
  }

  // ----------------------------------------------------------------------------
  // Histories
  // ----------------------------------------------------------------------------

  /** A revocation may meet a database error when it reads the policy in force. */
  datatype Change = Install(policy: Policy) | Rollback | RevokeTool(tool: string, faulty: bool)

  datatype TimedChange = TimedChange(change: Change, note: Note, at: Instant)

  /** When the database was migrated, and the two hash functions. */
  datatype Setup = Setup(start: int, fingerprint: Fingerprint, digest: Digest)

  /** Exactly one row is active, the one inserted last, and every row has its hash. */
  predicate RowsOk(rows: seq<PolicyRow>, fingerprint: Fingerprint)
  {
    && rows != [] && rows[|rows| - 1].active
    && (forall i :: 0 <= i < |rows| - 1 ==> !rows[i].active)
    && (forall i :: 0 <= i < |rows| ==> rows[i].stored.Readable? && rows[i].hash == fingerprint(rows[i].stored.policy))
  }

  /** The policy a change puts in force, given the one before it. */
  function Outcome(before: Policy, c: Change): Policy
  {
    match c
    case Install(p) => p
    case Rollback => V1
    case RevokeTool(t, faulty) => Revoke(if faulty then V1 else before, t)
  }

  function NoteOf(c: TimedChange): Note
  {
    if c.change.RevokeTool? then RevocationNote(c.note, c.change.tool) else c.note
  }

  function InForce(rows: seq<PolicyRow>): Policy
    requires rows != [] && rows[|rows| - 1].stored.Readable?
  {
    rows[|rows| - 1].stored.policy
  }

  /** One change, made by the policy in force before it. */
  function Make(s: Store, c: TimedChange, setup: Setup): (r: Store)
    requires RowsOk(s.rows, setup.fingerprint)
    ensures RowsOk(r.rows, setup.fingerprint)
  {
    Applied(s, Outcome(InForce(s.rows), c.change), NoteOf(c), c.at, setup.fingerprint, setup.digest)
  }

  function Migrated(p: Policy, fingerprint: Fingerprint, start: int): (rows: seq<PolicyRow>)
    ensures RowsOk(rows, fingerprint)
  {
    [PolicyRow(Readable(p), fingerprint(p), true, start)]
  }

  function After(cs: seq<TimedChange>, setup: Setup): (r: Store)
    ensures RowsOk(r.rows, setup.fingerprint)
  {
    if cs == [] then Store(Migrated(V1, setup.fingerprint, setup.start), Genesis(setup.digest))
    else Make(After(cs[..|cs| - 1], setup), cs[|cs| - 1], setup)
  }

  function PolicyAfter(cs: seq<TimedChange>, setup: Setup): Policy
  {
    InForce(After(cs, setup).rows)
  }

  /** In no history is there a choice of the active policy, whatever the clock said when the
      rows were made, or a policy that does not read. */
  lemma ActivePolicyIsUnique(cs: seq<TimedChange>, r: Lookup, setup: Setup)
    ensures Current(After(cs, setup).rows, r, setup.fingerprint) <==> r == Found(PolicyAfter(cs, setup))
  {
    hide V1, After;
    var rows := After(cs, setup).rows;
    assert forall i :: 0 <= i < |rows| && rows[i].active ==> i == |rows| - 1;
    assert IsActiveChoice(rows, |rows| - 1);
  }

  /** Every change leaves one record, and the ledger always verifies. */
  lemma {:induction false} PolicyLedgerVerifies(cs: seq<TimedChange>, setup: Setup)
    ensures var l := After(cs, setup).ledger; ValidChain(l, setup.digest) && |l| == 1 + |cs|
  {
    hide Append, ValidChain, AppliedEntry, V1, Supersede;
    if cs == [] {
      GenesisValid(setup.digest);
    } else {
      var init, c := cs[..|cs| - 1], cs[|cs| - 1];
      PolicyLedgerVerifies(init, setup);
      var s := After(init, setup);
      var p := Outcome(InForce(s.rows), c.change);
      ChainGrows(s.ledger, AppliedEntry(p, setup.fingerprint(p), NoteOf(c), c.at.stamp), setup.digest);
    }
  }

  lemma ChainGrows(l: Ledger, e: Entry, h: Digest)
    requires ValidChain(l, h)
    ensures ValidChain(Append(l, e, h), h) && |Append(l, e, h)| == |l| + 1
  {
    hide CanonicalOf;
    AppendValid(l, e, h);
  }

  /** A revoked tool stays off the list until a policy that lists it is installed. */
  lemma {:induction false} RevokedStaysUnlisted(cs: seq<TimedChange>, m: nat, t: string, setup: Setup)
    requires m < |cs| && cs[m].change.RevokeTool? && cs[m].change.tool == t
    requires forall k :: m < k < |cs| && cs[k].change.Install? ==> t !in cs[k].change.policy.tools
    ensures t !in PolicyAfter(cs, setup).tools
  {
    hide Append, AppliedEntry;
    var n := |cs| - 1;
    var init := cs[..n];
    var before := PolicyAfter(init, setup);
    assert PolicyAfter(cs, setup) == Outcome(before, cs[n].change);
    if m < n {
      assert forall k :: 0 <= k < n ==> init[k] == cs[k];
      RevokedStaysUnlisted(init, m, t, setup);
      if cs[n].change.RevokeTool? {
        WithoutMembers(before.tools, cs[n].change.tool);
      }
    } else {
      WithoutMembers(before.tools, t);
      WithoutMembers(V1.tools, t);
    }
  }

  /** Over every history in which a tool was revoked and no policy listing it was installed
      since, whatever else was: the tool is out of reach exactly when some tool is listed, or
      it is not a default tool, or the policy in force offers no inspections. */
  lemma RevokedThroughoutIff(cs: seq<TimedChange>, m: nat, t: string, setup: Setup)
    requires m < |cs| && cs[m].change.RevokeTool? && cs[m].change.tool == t
    requires forall k :: m < k < |cs| && cs[k].change.Install? ==> t !in cs[k].change.policy.tools
    ensures var p := PolicyAfter(cs, setup);
            (forall d :: Uses(d, t) ==> !Admits(p, d))
            <==> p.tools != [] || t !in DEFAULT_TOOLS || !InspectionOffered(p)
  {
    hide Admits, Uses, PolicyAfter, OffersInspection;
    RevokedStaysUnlisted(cs, m, t, setup);
    var p := PolicyAfter(cs, setup);
    DefaultsNonempty();
    if p.tools == [] && t in DEFAULT_TOOLS && InspectionOffered(p) {
      var i, a, r :| OffersInspection(p, i, a, r);
      OfferedUseIsAdmitted(p, i, a, r, t);
      assert Uses(Inspection(i, a, r, t), t);
    } else {
      forall d | Uses(d, t) ensures !Admits(p, d) {
        RevokedUseDenied(p, d, t);
      }
    }
  }

  function ToolsOf(cs: seq<TimedChange>): seq<string>
    requires forall i :: 0 <= i < |cs| ==> cs[i].change.RevokeTool?
  {
    seq(|cs|, i requires 0 <= i < |cs| => cs[i].change.tool)
  }

  lemma {:induction false} RevokeLast(p: Policy, ts: seq<string>, t: string)
    ensures RevokeAll(p, ts + [t]) == Revoke(RevokeAll(p, ts), t)
    decreases |ts|
  {
    if ts == [] {
      assert ts + [t] == [t];
    } else {
      assert (ts + [t])[1..] == ts[1..] + [t];
      RevokeLast(Revoke(p, ts[0]), ts[1..], t);
    }
  }

  lemma LastOutcome(cs: seq<TimedChange>, c: TimedChange, setup: Setup)
    ensures PolicyAfter(cs + [c], setup) == Outcome(PolicyAfter(cs, setup), c.change)
  {
    hide V1, Append, AppliedEntry, Revoke;
    assert (cs + [c])[..|cs + [c]| - 1] == cs;
  }

  lemma RevokedV1(t: string)
    ensures Revoke(V1, t) == V1
  {
  }

  /** A series of revocations leaves the policy before it without those tools, unless one of
      them met a database error: that one is a rollback, whatever was in force. */
  lemma {:induction false} RevocationsInForce(cs: seq<TimedChange>, rs: seq<TimedChange>, setup: Setup)
    requires forall i :: 0 <= i < |rs| ==> rs[i].change.RevokeTool?
    ensures PolicyAfter(cs + rs, setup) ==
            if exists i :: 0 <= i < |rs| && rs[i].change.faulty then V1
            else RevokeAll(PolicyAfter(cs, setup), ToolsOf(rs))
    decreases |rs|
  {
    hide V1, Without, PolicyAfter, Revoke;
    if rs == [] {
      assert cs + rs == cs;
    } else {
      var n := |rs| - 1;
      var init, last := rs[..n], rs[n];
      RevocationsInForce(cs, init, setup);
      assert cs + rs == cs + init + [last];
      LastOutcome(cs + init, last, setup);
      RevokedV1(last.change.tool);
      if exists i :: 0 <= i < n && init[i].change.faulty {
        var i :| 0 <= i < n && init[i].change.faulty;
        assert rs[i].change.faulty;
      } else if !last.change.faulty {
        assert forall i :: 0 <= i < |rs| ==> i < n ==> rs[i] == init[i];
        assert ToolsOf(rs) == ToolsOf(init) + [last.change.tool];
        RevokeLast(PolicyAfter(cs, setup), ToolsOf(init), last.change.tool);
      }
    }
  }
}
