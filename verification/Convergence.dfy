/** What the realtime protocol guarantees over every run. */
module Convergence {
  import opened Common
  import opened Delta
  import opened Replay
  import opened Manager
  import opened Backpressure
  import opened Synchronisation

  function Run(w: World, steps: seq<Step>): World
    decreases |steps|
  {
    if steps == [] then w else Run(Next(w, steps[0]), steps[1..])
  }

  lemma {:induction false} RunKeepsInv(w: World, steps: seq<Step>)
    requires Inv(w)
    ensures Inv(Run(w, steps))
    decreases |steps|
  {
    hide Inv, Next;
    if steps != [] {
      NextKeepsInv(w, steps[0]);
      RunKeepsInv(Next(w, steps[0]), steps[1..]);
    }
  }

  lemma StartInv(instanceId: string, replaySize: nat, queueSize: nat, maxConnections: nat)
    requires queueSize >= 1
    ensures Inv(StartWorld(Start(instanceId, replaySize, queueSize, maxConnections)))
  {
    hide Equivalent, DeltaBetween, LinkOk, ConnectionOk, Tracks, RingOf;
    EmptyRing(replaySize);
  }

  lemma EmptyRing(replaySize: nat)
    ensures RingOf([], replaySize) == []
  {
  }

  function RunFromStart(m: ManagerState, steps: seq<Step>): World
  {
    Run(StartWorld(m), steps)
  }

  lemma FromStartInv(m: ManagerState, steps: seq<Step>)
    requires m.queueSize >= 1 && m == Start(m.instanceId, m.replaySize, m.queueSize, m.maxConnections)
    ensures Inv(RunFromStart(m, steps))
  {
    hide Inv;
    StartInv(m.instanceId, m.replaySize, m.queueSize, m.maxConnections);
    RunKeepsInv(StartWorld(m), steps);
  }

  /** Safety: whatever was lost, delayed or replayed, a client that holds a view holds
      the snapshot the manager had at that client's sequence, up to equivalence. */
  lemma ClientsNeverDiverge(m: ManagerState, steps: seq<Step>, c: string)
    requires m.queueSize >= 1 && m == Start(m.instanceId, m.replaySize, m.queueSize, m.maxConnections)
    requires var w := RunFromStart(m, steps); c in w.clients && w.clients[c].view.Some?
    ensures var w := RunFromStart(m, steps);
            var k := w.clients[c];
            && 1 <= k.sequence <= |w.log| == w.manager.sequence
            && Equivalent(k.view.value, w.log[k.sequence - 1])
  {
    hide Equivalent, DeltaBetween;
    FromStartInv(m, steps);
    var w := RunFromStart(m, steps);
    assert Tracks(w.log, w.clients[c]);
  }

  /** Completeness: a connected client whose queue is drained, that was not warned on
      this connection and did not resume from beyond its own sequence, is level with
      the manager and shows the newest sample, suppressed samples included. */
  lemma DrainedClientsAreCurrent(m: ManagerState, steps: seq<Step>, c: string)
    requires m.queueSize >= 1 && m == Start(m.instanceId, m.replaySize, m.queueSize, m.maxConnections)
    requires var w := RunFromStart(m, steps);
             && c in w.manager.queues && w.manager.queues[c] == []
             && c in w.links && !HasMarker(w.links[c].delivered) && c !in w.overclaimed
    ensures var w := RunFromStart(m, steps);
            && c in w.clients
            && w.clients[c].sequence == w.manager.sequence
            && (w.lastSample.Some? ==>
                  w.clients[c].view.Some? && Equivalent(w.clients[c].view.value, w.lastSample.value))
  {
    hide DeltaBetween, LinkOk, RingOf, Apply, CoreOf;
    FromStartInv(m, steps);
    var w := RunFromStart(m, steps);
    assert ConnectionOk(w, c);
    assert Tracks(w.log, w.clients[c]);
    assert ReceiveAll(w.clients[c], []) == w.clients[c];
  }

  /** The same for a client that was warned earlier but has since received a snapshot. */
  lemma DrainedTrustingClientsAreCurrent(m: ManagerState, steps: seq<Step>, c: string)
    requires m.queueSize >= 1 && m == Start(m.instanceId, m.replaySize, m.queueSize, m.maxConnections)
    requires var w := RunFromStart(m, steps);
             c in w.manager.queues && w.manager.queues[c] == [] && c in w.clients && !w.clients[c].suspect
    ensures var w := RunFromStart(m, steps);
            && w.clients[c].sequence == w.manager.sequence
            && (w.lastSample.Some? ==>
                  w.clients[c].view.Some? && Equivalent(w.clients[c].view.value, w.lastSample.value))
  {
    hide DeltaBetween, LinkOk, RingOf, Apply, CoreOf;
    FromStartInv(m, steps);
    var w := RunFromStart(m, steps);
    assert ConnectionOk(w, c);
    assert Tracks(w.log, w.clients[c]);
    assert ReceiveAll(w.clients[c], []) == w.clients[c];
  }

  /** Backpressure: queues stay within their bound, nothing is delivered or kept that
      was not offered, and a message lost to a slow client leaves a resync notice
      behind it that is still queued or already delivered. */
  lemma LossIsNeverSilent(m: ManagerState, steps: seq<Step>, c: string)
    requires m.queueSize >= 1 && m == Start(m.instanceId, m.replaySize, m.queueSize, m.maxConnections)
    requires c in RunFromStart(m, steps).manager.queues
    ensures var w := RunFromStart(m, steps);
            && c in w.links
            && |w.manager.queues[c]| <= w.manager.queueSize
            && KeptOf(w.links[c].stream) == w.links[c].delivered + w.manager.queues[c]
            && LossesMarked(w.links[c].stream)
            && ((exists i :: 0 <= i < |w.links[c].stream| && w.links[c].stream[i].Lost?) ==>
                  HasMarker(w.links[c].delivered) || HasMarker(w.manager.queues[c]))
  {
    FromStartInv(m, steps);
    var w := RunFromStart(m, steps);
    var l := w.links[c];
    if i :| 0 <= i < |l.stream| && l.stream[i].Lost? {
      LossLeavesMarker(l, w.manager.queueSize, i);
      var e: Envelope :| e.payload.ResyncPayload? && (e in l.delivered || e in l.queue);
      if e in l.delivered {
        var j :| 0 <= j < |l.delivered| && l.delivered[j] == e;
      } else {
        var j :| 0 <= j < |l.queue| && l.queue[j] == e;
      }
    }
  }

  // ----------------------------------------------------------------------------
  // Transmission alone: folding what was sent over a list of samples
  // ----------------------------------------------------------------------------

  function Samples(snapshots: seq<Snapshot>): seq<Step>
  {
    seq(|snapshots|, i requires 0 <= i < |snapshots| => Sample(snapshots[i]))
  }

  lemma {:induction false} LastSampleOf(w: World, snapshots: seq<Snapshot>)
    requires Inv(w)
    ensures snapshots != [] ==> Run(w, Samples(snapshots)).lastSample == Some(snapshots[|snapshots| - 1])
    decreases |snapshots|
  {
    hide ManagerOk, ConnectionOk, Tracks, DeltaBetween, OfferLinks, NewSnapshot, LinkOk;
    if snapshots != [] {
      var steps := Samples(snapshots);
      assert steps[1..] == Samples(snapshots[1..]);
      NextKeepsInv(w, steps[0]);
      LastSampleOf(Next(w, steps[0]), snapshots[1..]);
      if |snapshots| == 1 {
        assert steps[1..] == [];
      }
    }
  }

  /** The revision a transmitted message brings a client to. */
  function RevisionOf(e: Envelope): int
  {
    match e.payload
    case SnapshotPayload(s) => s.revision
    case DeltaPayload(d) => d.revision
    case _ => 0
  }

  /** No drift: a client that receives everything transmitted over any list of samples
      ends equivalent to the last of them, and every delta names as its base the
      revision of the message sent just before it. */
  lemma TransmissionFaithful(m: ManagerState, snapshots: seq<Snapshot>)
    requires m.queueSize >= 1 && m == Start(m.instanceId, m.replaySize, m.queueSize, m.maxConnections)
    requires snapshots != []
    ensures var w := RunFromStart(m, Samples(snapshots));
            var k := ReceiveAll(NEWCOMER, w.sent);
            && k.sequence == w.manager.sequence == |w.sent| >= 1
            && k.view.Some? && Equivalent(k.view.value, snapshots[|snapshots| - 1])
            && (forall i :: 1 <= i < |w.sent| ==>
                  w.sent[i].payload.DeltaPayload? && w.sent[i].payload.delta.baseRevision == RevisionOf(w.sent[i - 1]))
  {
    StartInv(m.instanceId, m.replaySize, m.queueSize, m.maxConnections);
    LastSampleOf(StartWorld(m), snapshots);
    FromStartInv(m, Samples(snapshots));
    var w := RunFromStart(m, Samples(snapshots));
    EverythingReceived(w);
    BasesChain(w);
  }

  lemma EverythingReceived(w: World)
    requires Inv(w) && w.log != []
    ensures var k := ReceiveAll(NEWCOMER, w.sent);
            && k.sequence == |w.sent| == w.manager.sequence >= 1
            && k.view.Some? && Equivalent(k.view.value, w.lastSample.value)
  {
    hide DeltaBetween, Apply, CoreOf, LinksFit, ConnectionOk, ReceiveAll;
    assert w.sent[0..|w.sent|] == w.sent;
    ReplayCatchesUp(w.log, w.sent, NEWCOMER, 0, |w.sent|);
  }

  lemma BasesChain(w: World)
    requires Inv(w)
    ensures forall i :: 1 <= i < |w.sent| ==>
              w.sent[i].payload.DeltaPayload? && w.sent[i].payload.delta.baseRevision == RevisionOf(w.sent[i - 1])
  {
    hide Equivalent, ChangesBetween, LinksFit, ConnectionOk;
    forall i | 1 <= i < |w.sent|
      ensures w.sent[i].payload.DeltaPayload? && w.sent[i].payload.delta.baseRevision == RevisionOf(w.sent[i - 1])
    {
      assert DeltaBetween(w.log[i - 1], w.log[i]) == Some(w.sent[i].payload.delta);
      if i > 1 {
        assert DeltaBetween(w.log[i - 2], w.log[i - 1]) == Some(w.sent[i - 1].payload.delta);
      }
    }
  }

  /** Resuming by replay and starting over from a snapshot lead to equivalent views. */
  lemma ReplayMatchesSnapshot(w: World, k: Client, fromSequence: int)
    requires Inv(w) && w.log != [] && Tracks(w.log, k) && !k.suspect
    requires fromSequence <= k.sequence
    requires MessagesSince(w.manager.ring, fromSequence).Some?
    ensures var replayed := ReceiveAll(k, Greeting(w.manager, Some(w.manager.instanceId), Some(fromSequence)));
            var restarted := ReceiveAll(k, Greeting(w.manager, None, None));
            && replayed.sequence == restarted.sequence == w.manager.sequence
            && replayed.view.Some? && restarted.view.Some?
            && Equivalent(replayed.view.value, restarted.view.value)
  {
    hide DeltaBetween, Apply, CoreOf, LinksFit, ConnectionOk, MessagesSince, RingOf;
    var i, f := Some(w.manager.instanceId), Some(fromSequence);
    GreetingTrusted(w, k, i, f);
    GreetingTrusted(w, k, None, None);
  }

  lemma GreetingTrusted(w: World, k: Client, knownInstance: Option<string>, fromSequence: Option<int>)
    requires Inv(w) && w.log != [] && Tracks(w.log, k) && !k.suspect
    requires !Overclaims(w.manager, k, knownInstance, fromSequence)
    requires knownInstance.None? || IsReplay(w.manager, knownInstance, fromSequence)
    ensures var k' := ReceiveAll(k, Greeting(w.manager, knownInstance, fromSequence));
            && k'.sequence == w.manager.sequence && k'.view.Some?
            && Equivalent(k'.view.value, w.log[|w.log| - 1])
  {
    hide DeltaBetween, Apply, Equivalent, LinksFit, ConnectionOk, MessagesSince, RingOf;
    var g := Greeting(w.manager, knownInstance, fromSequence);
    GreetingCatchesUp(w, k, knownInstance, fromSequence);
    ReceiveAllTracks(w.log, w.sent, k, g);
    GreetingUnmarked(w, k, knownInstance, fromSequence);
  }

  lemma GreetingUnmarked(w: World, k: Client, knownInstance: Option<string>, fromSequence: Option<int>)
    requires Inv(w) && !k.suspect
    requires knownInstance.None? || IsReplay(w.manager, knownInstance, fromSequence)
    ensures !ReceiveAll(k, Greeting(w.manager, knownInstance, fromSequence)).suspect
  {
    hide DeltaBetween, Apply, Equivalent, LinksFit, ConnectionOk, MessagesSince;
    var g := Greeting(w.manager, knownInstance, fromSequence);
    if IsReplay(w.manager, knownInstance, fromSequence) {
      ReplayExact(w.sent, w.manager.replaySize, fromSequence.value);
      assert g == MessagesSince(w.manager.ring, fromSequence.value).value;
      assert forall i :: 0 <= i < |w.sent| ==> !w.sent[i].payload.ResyncPayload?;
    }
    UnmarkedStaysTrusted(k, g);
  }

  lemma {:induction false} UnmarkedStaysTrusted(k: Client, q: seq<Envelope>)
    requires !k.suspect && forall i :: 0 <= i < |q| ==> !q[i].payload.ResyncPayload?
    ensures !ReceiveAll(k, q).suspect
  {
    if q != [] {
      UnmarkedStaysTrusted(k, q[..|q| - 1]);
    }
  }

  // ----------------------------------------------------------------------------
  // Resuming from beyond what one holds
  // ----------------------------------------------------------------------------

  lemma {:induction false} GapIgnored(k: Client, q: seq<Envelope>)
    requires forall i :: 0 <= i < |q| ==> q[i].payload.DeltaPayload? && q[i].sequence > k.sequence + 1
    ensures ReceiveAll(k, q) == k
  {
    if q != [] {
      GapIgnored(k, q[..|q| - 1]);
    }
  }

  /** A replay from beyond the client's sequence teaches it nothing. */
  lemma OverclaimStrands(w: World, k: Client, knownInstance: Option<string>, fromSequence: Option<int>)
    requires Inv(w) && Tracks(w.log, k)
    requires Overclaims(w.manager, k, knownInstance, fromSequence) && IsReplay(w.manager, knownInstance, fromSequence)
    ensures ReceiveAll(k, Greeting(w.manager, knownInstance, fromSequence)) == k
  {
    hide DeltaBetween, Apply, Equivalent, LinksFit, ConnectionOk, MessagesSince;
    ReplayExact(w.sent, w.manager.replaySize, fromSequence.value);
    GapIgnored(k, MessagesSince(w.manager.ring, fromSequence.value).value);
  }

  /** A client that was not warned is level after its greeting exactly when it did not
      resume from beyond its own sequence, or was level before, or had to be given a
      snapshot anyway. */
  lemma GreetingLevelsIff(w: World, k: Client, knownInstance: Option<string>, fromSequence: Option<int>)
    requires Inv(w) && Tracks(w.log, k) && !k.suspect
    ensures ReceiveAll(k, Greeting(w.manager, knownInstance, fromSequence)).sequence == w.manager.sequence
      <==> || !Overclaims(w.manager, k, knownInstance, fromSequence)
           || !IsReplay(w.manager, knownInstance, fromSequence)
           || k.sequence == w.manager.sequence
  {
    hide DeltaBetween, Apply, Equivalent, LinksFit, ConnectionOk, MessagesSince, RingOf, Greeting, ReceiveAll;
    if !IsReplay(w.manager, knownInstance, fromSequence) {
      SnapshotGreetingLevels(w, k, knownInstance, fromSequence);
    } else if Overclaims(w.manager, k, knownInstance, fromSequence) {
      OverclaimStrands(w, k, knownInstance, fromSequence);
    } else {
      ReplayNeedsHistory(w, knownInstance, fromSequence);
      GreetingTrusted(w, k, knownInstance, fromSequence);
    }
  }

  lemma ReplayNeedsHistory(w: World, knownInstance: Option<string>, fromSequence: Option<int>)
    requires Inv(w) && IsReplay(w.manager, knownInstance, fromSequence)
    ensures w.log != []
  {
    hide DeltaBetween, Equivalent, LinksFit, ConnectionOk;
    assert w.manager.ring != [];
  }

  lemma SnapshotGreetingLevels(w: World, k: Client, knownInstance: Option<string>, fromSequence: Option<int>)
    requires Inv(w) && Tracks(w.log, k) && !IsReplay(w.manager, knownInstance, fromSequence)
    ensures ReceiveAll(k, Greeting(w.manager, knownInstance, fromSequence)).sequence == w.manager.sequence
  {
    hide DeltaBetween, Apply, Equivalent, LinksFit, ConnectionOk, MessagesSince, RingOf;
    var g := Greeting(w.manager, knownInstance, fromSequence);
    if w.manager.latest.Some? {
      assert g[|g| - 1].payload.SnapshotPayload? && g[|g| - 1].sequence == w.manager.sequence;
    } else if g != [] {
      assert g[0].payload.ResyncPayload? && |g| == 1 && g[..0] == [];
    }
  }

  /** One sample, and a newcomer that claims to have seen it. */
  function Stranding(s: Snapshot, c: string, instanceId: string): seq<Step>
  {
    [Sample(s), Join(c, Some(instanceId), Some(1))]
  }

  lemma AfterFirstSample(m: ManagerState, s: Snapshot)
    requires m == Start(m.instanceId, m.replaySize, m.queueSize, m.maxConnections) && m.replaySize >= 1
    ensures var w := Next(StartWorld(m), Sample(s));
            && w.manager == m.(sequence := 1, latest := Some(s),
                               ring := [Envelope(1, m.instanceId, SnapshotPayload(s))])
            && w.lastSample == Some(s) && w.clients == map[] && w.links == map[]
  {
    hide DeltaBetween;
    var w := Next(StartWorld(m), Sample(s));
    assert w.manager.queues == map[];
    assert w.manager.ring == [Envelope(1, m.instanceId, SnapshotPayload(s))];
  }

  lemma NewcomerStranded(w: World, c: string)
    requires c !in w.manager.queues && c !in w.clients && !w.manager.AtCapacity() && w.manager.sequence == 1
    requires |w.manager.ring| == 1 && w.manager.ring[0].sequence == 1
    ensures var w' := Next(w, Join(c, Some(w.manager.instanceId), Some(1)));
            && w'.manager.sequence == 1 && w'.lastSample == w.lastSample
            && c in w'.manager.queues && w'.manager.queues[c] == []
            && c in w'.links && w'.links[c].delivered == []
            && c in w'.clients && w'.clients[c].sequence == 0 && w'.clients[c].view.None?
  {
    hide DeltaBetween, Apply;
    assert MessagesSince(w.manager.ring, 1) == Some([]);
    assert Greeting(w.manager, Some(w.manager.instanceId), Some(1)) == [];
  }

  /** On every manager a run of two steps ends with a connected client drained, unwarned and
      behind: it shows nothing while the manager holds a snapshot, and nothing is on its way. */
  lemma OverclaimRun(m: ManagerState, s: Snapshot, c: string)
    requires m == Start(m.instanceId, m.replaySize, m.queueSize, m.maxConnections)
    requires m.replaySize >= 1 && m.queueSize >= 1 && m.maxConnections >= 1
    ensures var w := RunFromStart(m, Stranding(s, c, m.instanceId));
            && w.manager.sequence == 1 && w.lastSample == Some(s)
            && c in w.manager.queues && w.manager.queues[c] == []
            && c in w.links && !HasMarker(w.links[c].delivered)
            && c in w.clients && w.clients[c].sequence == 0 && w.clients[c].view.None?
  {
    hide Next, Run;
    AfterFirstSample(m, s);
    NewcomerStranded(Next(StartWorld(m), Sample(s)), c);
    RunTwo(StartWorld(m), Stranding(s, c, m.instanceId));
  }

  lemma RunTwo(w: World, steps: seq<Step>)
    requires |steps| == 2
    ensures Run(w, steps) == Next(Next(w, steps[0]), steps[1])
  {
    hide Next;
    assert steps[1..] == [steps[1]] && steps[1..][1..] == [];
    assert Run(Next(w, steps[0]), steps[1..]) == Run(Next(Next(w, steps[0]), steps[1]), []);
  }
}
