/** Exactly which clients a run leaves behind: those whose last connection resumed from
    beyond what they held, while the manager was ahead of them. */
module Stranding {
  import opened Common
  import opened Delta
  import opened Replay
  import opened Manager
  import opened Backpressure
  import opened Synchronisation
  import opened Convergence

  /** Connecting like this is answered by a replay from beyond what the client holds, and
      the client is behind. */
  predicate Strands(w: World, c: string, knownInstance: Option<string>, fromSequence: Option<int>)
  {
    && IsReplay(w.manager, knownInstance, fromSequence)
    && Overclaims(w.manager, ClientOf(w, c), knownInstance, fromSequence)
    && ClientOf(w, c).sequence < w.manager.sequence
  }

  /** The clients whose last connection stranded them. */
  function StrandedBy(w: World, step: Step, stranded: set<string>): set<string>
  {
    match step
    case Join(c, knownInstance, fromSequence) =>
      if c in w.manager.queues || w.manager.AtCapacity() then stranded
      else if Strands(w, c, knownInstance, fromSequence) then stranded + {c}
      else stranded - {c}
    case _ => stranded
  }

  function StrandedAfter(w: World, steps: seq<Step>, stranded: set<string>): set<string>
    decreases |steps|
  {
    if steps == [] then stranded else StrandedAfter(Next(w, steps[0]), steps[1..], StrandedBy(w, steps[0], stranded))
  }

  // ----------------------------------------------------------------------------
  // The course of a connection that has met no resync notice
  // ----------------------------------------------------------------------------

  /** Nothing in the queue means anything to the client, and the manager is ahead of it. */
  predicate Stuck(sequence: nat, k: Client, q: Queue)
  {
    && k.sequence < sequence
    && forall i :: 0 <= i < |q| ==>
         q[i].payload.HeartbeatPayload? || (q[i].payload.DeltaPayload? && q[i].sequence > k.sequence + 1)
  }

  ghost predicate Course(sequence: nat, k: Client, q: Queue, stranded: bool)
  {
    if stranded then Stuck(sequence, k, q) else ReceiveAll(k, q).sequence == sequence
  }

  ghost predicate CourseOk(w: World, c: string, stranded: bool)
    requires c in w.manager.queues && c in w.links
  {
    || HasMarker(w.links[c].delivered) || HasMarker(w.manager.queues[c])
    || Course(w.manager.sequence, ClientOf(w, c), w.manager.queues[c], stranded)
  }

  ghost predicate CoursesOk(w: World, stranded: set<string>)
  {
    forall c :: c in w.manager.queues && c in w.links ==> CourseOk(w, c, c in stranded)
  }

  lemma MarkerAppended(q: Queue, e: Envelope)
    ensures HasMarker(q + [e]) <==> HasMarker(q) || e.payload.ResyncPayload?
  {
    if HasMarker(q) {
      var i :| 0 <= i < |q| && q[i].payload.ResyncPayload?;
      assert (q + [e])[i].payload.ResyncPayload?;
    }
    assert (q + [e])[|q|] == e;
  }

  /** A broadcast keeps the course of a connection, or marks it. */
  lemma OfferKeepsDirection(sequence: nat, next: nat, k: Client, q: Queue, e: Envelope, marker: Envelope, size: nat,
                            stranded: bool)
    requires size >= 1 && marker.payload.ResyncPayload?
    requires HasMarker(q) || Course(sequence, k, q, stranded)
    requires k.sequence >= 0 && (var k' := ReceiveAll(k, q); k'.view.None? ==> k'.sequence <= 0)
    requires
      || (e.payload.SnapshotPayload? && e.sequence == next == 1 && sequence == 0)
      || (e.payload.DeltaPayload? && e.sequence == next == sequence + 1 >= 2)
      || (e.payload.HeartbeatPayload? && next == sequence)
    ensures var q' := Offer(q, e, marker, size); HasMarker(q') || Course(next, k, q', stranded)
  {
    hide Apply, HasMarker;
    if |q| < size {
      MarkerAppended(q, e);
      ReceiveAllAppend(k, q, e);
    } else {
      MarkerAppended(if q == [] then [] else q[1..], marker);
    }
  }

  lemma {:induction false} UnmarkedFits(ms: seq<Envelope>, marker: Envelope, size: nat)
    requires size >= 1 && marker.payload.ResyncPayload?
    ensures var q := OfferAll([], ms, marker, size); HasMarker(q) || q == ms
  {
    hide HasMarker;
    if ms != [] {
      var init, last := ms[..|ms| - 1], ms[|ms| - 1];
      UnmarkedFits(init, marker, size);
      var q := OfferAll([], init, marker, size);
      MarkerAppended(q, last);
      MarkerAppended(if q == [] then [] else q[1..], marker);
    }
  }

  lemma {:induction false} TrustIrrelevant(k: Client, b: bool, q: Queue)
    ensures ReceiveAll(k.(suspect := b), q).sequence == ReceiveAll(k, q).sequence
    ensures ReceiveAll(k.(suspect := b), q).view == ReceiveAll(k, q).view
  {
    hide Apply;
    if q != [] {
      TrustIrrelevant(k, b, q[..|q| - 1]);
    }
  }

  lemma StrandedGreeting(w: World, c: string, knownInstance: Option<string>, fromSequence: Option<int>)
    requires Inv(w) && Strands(w, c, knownInstance, fromSequence) && ClientOf(w, c).sequence >= 0
    ensures Stuck(w.manager.sequence, ClientOf(w, c), Greeting(w.manager, knownInstance, fromSequence))
  {
    hide DeltaBetween, Equivalent, LinksFit, ConnectionOk, MessagesSince;
    ReplayExact(w.sent, w.manager.replaySize, fromSequence.value);
  }

  lemma ClientTracks(w: World, c: string)
    requires Inv(w)
    ensures Tracks(w.log, ClientOf(w, c))
  {
    hide LinksFit, ManagerOk, ConnectionOk, Equivalent;
  }

  lemma JoinedCourse(w: World, c: string, knownInstance: Option<string>, fromSequence: Option<int>)
    requires Inv(w) && c !in w.manager.queues && !w.manager.AtCapacity()
    ensures var w' := Next(w, Join(c, knownInstance, fromSequence));
            && c in w'.manager.queues && c in w'.links
            && CourseOk(w', c, Strands(w, c, knownInstance, fromSequence))
  {
    hide Greeting, OfferAll, OfferAllLink, Inv, ReceiveAll, Receive, Tracks, HasMarker, Overclaims, IsReplay;
    var m, k := w.manager, ClientOf(w, c);
    var g, marker := Greeting(m, knownInstance, fromSequence), m.SlowClientMarker();
    QueueSizes(w);
    UnmarkedFits(g, marker, m.queueSize);
    ClientTracks(w, c);
    TrackedNonnegative(w.log, k);
    if Strands(w, c, knownInstance, fromSequence) {
      StrandedGreeting(w, c, knownInstance, fromSequence);
    } else {
      JoinLevels(w, k, knownInstance, fromSequence);
    }
    var w' := Next(w, Join(c, knownInstance, fromSequence));
    TrustIrrelevant(k, w'.clients[c].suspect, g);
    assert w'.clients[c] == k.(suspect := w'.clients[c].suspect);
  }

  lemma QueueSizes(w: World)
    requires Inv(w)
    ensures w.manager.queueSize >= 1 && w.links.Keys == w.manager.queues.Keys && w.manager.sequence == |w.log|
  {
    hide ConnectionOk, Tracks, Transmitted;
  }

  lemma TrackedNonnegative(log: seq<Snapshot>, k: Client)
    requires Tracks(log, k)
    ensures 0 <= k.sequence <= |log| && (k.view.None? ==> k.sequence == 0)
  {
    hide Equivalent;
  }

  lemma JoinLevels(w: World, k: Client, knownInstance: Option<string>, fromSequence: Option<int>)
    requires Inv(w) && Tracks(w.log, k)
    requires !(IsReplay(w.manager, knownInstance, fromSequence)
               && Overclaims(w.manager, k, knownInstance, fromSequence) && k.sequence < w.manager.sequence)
    ensures ReceiveAll(k, Greeting(w.manager, knownInstance, fromSequence)).sequence == w.manager.sequence
  {
    hide Inv, ReceiveAll, Greeting, IsReplay, Equivalent;
    QueueSizes(w);
    GreetingLevelsIff(w, k.(suspect := false), knownInstance, fromSequence);
    TrustIrrelevant(k, false, Greeting(w.manager, knownInstance, fromSequence));
  }

  // ----------------------------------------------------------------------------
  // Every step keeps the courses
  // ----------------------------------------------------------------------------

  /** A broadcast reaches every connection, and leaves the clients alone. */
  lemma BroadcastKeepsCourses(w: World, w': World, e: Envelope, stranded: set<string>)
    requires Inv(w) && CoursesOk(w, stranded) && w'.clients == w.clients
    requires w'.manager.queueSize == w.manager.queueSize
    requires w'.manager.queues == map c | c in w.manager.queues ::
               Offer(w.manager.queues[c], e, w'.manager.SlowClientMarker(), w'.manager.queueSize)
    requires w'.links == OfferLinks(w, w'.manager, e)
    requires
      || (e.payload.SnapshotPayload? && e.sequence == w'.manager.sequence == 1 && w.manager.sequence == 0)
      || (e.payload.DeltaPayload? && e.sequence == w'.manager.sequence == w.manager.sequence + 1 >= 2)
      || (e.payload.HeartbeatPayload? && w'.manager.sequence == w.manager.sequence)
    ensures CoursesOk(w', stranded)
  {
    hide Inv, Course, HasMarker, Offer, OfferLink, ReceiveAll, Tracks, LinkOk;
    QueueSizes(w);
    forall c | c in w'.manager.queues && c in w'.links ensures CourseOk(w', c, c in stranded) {
      assert CourseOk(w, c, c in stranded);
      ClientTracks(w, c);
      TrackedNonnegative(w.log, ClientOf(w, c));
      QueueEndTracked(w, c);
      LinkOfConnected(w, c);
      OfferDelivers(w.links[c], e, w'.manager.SlowClientMarker(), w.manager.queueSize);
      if !HasMarker(w.links[c].delivered) {
        OfferKeepsDirection(w.manager.sequence, w'.manager.sequence, ClientOf(w, c), w.manager.queues[c], e,
                            w'.manager.SlowClientMarker(), w.manager.queueSize, c in stranded);
      }
    }
  }

  lemma LinkOfConnected(w: World, c: string)
    requires Inv(w) && c in w.manager.queues
    ensures c in w.links && LinkOk(w.links[c], w.manager.queueSize) && w.links[c].queue == w.manager.queues[c]
    ensures c in w.clients
  {
    hide LinkOk, ManagerOk, Tracks;
    assert LinksFit(w);
    TransmittedLengthsOf(w);
    assert ConnectionOk(w, c);
  }

  lemma TransmittedLengthsOf(w: World)
    requires Inv(w)
    ensures |w.log| == |w.sent|
  {
    hide LinksFit, ConnectionOk, Tracks;
    TransmittedLengths(w);
  }

  lemma QueueEndTracked(w: World, c: string)
    requires Inv(w) && c in w.manager.queues
    ensures var k' := ReceiveAll(ClientOf(w, c), w.manager.queues[c]); k'.view.None? ==> k'.sequence <= 0
  {
    hide Inv, LinkOk, ReceiveAll;
    LinkOfConnected(w, c);
    EndOfQueueTracked(w, c);
  }

  lemma SampleKeepsCourses(w: World, s: Snapshot, stranded: set<string>)
    requires Inv(w) && CoursesOk(w, stranded)
    ensures CoursesOk(Next(w, Sample(s)), stranded)
  {
    hide Inv, DeltaBetween, OfferLinks, Offer, Push, Course, HasMarker;
    var e := MessageFor(w.manager, s);
    if e.Some? {
      LatestMeansSequence(w);
      BroadcastKeepsCourses(w, Next(w, Sample(s)), e.value, stranded);
    } else {
      SameCourses(w, Next(w, Sample(s)), stranded);
    }
  }

  lemma SameCourses(w: World, w': World, stranded: set<string>)
    requires CoursesOk(w, stranded) && w' == w.(lastSample := w'.lastSample)
    ensures CoursesOk(w', stranded)
  {
    hide Course, HasMarker;
    forall c | c in w'.manager.queues && c in w'.links ensures CourseOk(w', c, c in stranded) {
      assert CourseOk(w, c, c in stranded);
    }
  }

  lemma LatestMeansSequence(w: World)
    requires Inv(w)
    ensures w.manager.latest.None? <==> w.manager.sequence == 0
  {
    hide LinksFit, ConnectionOk, Tracks, Transmitted;
  }

  lemma BeatKeepsCourses(w: World, stranded: set<string>)
    requires Inv(w) && CoursesOk(w, stranded)
    ensures CoursesOk(Next(w, Beat), stranded)
  {
    hide Inv, OfferLink, Offer, CoursesOk;
    var e := Envelope(w.manager.sequence, w.manager.instanceId, HeartbeatPayload);
    BroadcastKeepsCourses(w, Next(w, Beat), e, stranded);
  }

  lemma StuckDelivers(sequence: nat, k: Client, q: Queue)
    requires Stuck(sequence, k, q) && q != []
    ensures Receive(k, q[0]) == k && Stuck(sequence, k, q[1..])
  {
    hide Apply;
  }

  lemma DeliverKeepsCourse(w: World, c: string, stranded: bool)
    requires Inv(w) && c in w.manager.queues && w.manager.queues[c] != [] && c in w.links && w.links[c].queue != []
    requires CourseOk(w, c, stranded)
    ensures var w' := Next(w, Deliver(c));
            c in w'.manager.queues && c in w'.links && CourseOk(w', c, stranded)
  {
    hide Inv, Receive, Stuck, HasMarker, ReceiveAll;
    var q, k, l := w.manager.queues[c], ClientOf(w, c), w.links[c];
    LinkOfConnected(w, c);
    DeliveredMarkers(l, k);
    if HasMarker(q) {
      MarkerMoves(l.delivered, q);
    }
    ReceiveAllHead(k, q);
    if Stuck(w.manager.sequence, k, q) {
      StuckDelivers(w.manager.sequence, k, q);
    }
  }

  lemma MarkerMoves(delivered: seq<Envelope>, q: Queue)
    requires q != [] && HasMarker(q)
    ensures HasMarker(delivered + [q[0]]) || HasMarker(q[1..])
  {
    var i :| 0 <= i < |q| && q[i].payload.ResyncPayload?;
    if i == 0 {
      assert (delivered + [q[0]])[|delivered|].payload.ResyncPayload?;
    } else {
      assert q[1..][i - 1].payload.ResyncPayload?;
    }
  }

  lemma DeliverKeepsCourses(w: World, c: string, stranded: set<string>)
    requires Inv(w) && CoursesOk(w, stranded)
    ensures CoursesOk(Next(w, Deliver(c)), stranded)
  {
    hide Inv, Receive, Course, HasMarker;
    var w' := Next(w, Deliver(c));
    if c !in w.manager.queues || w.manager.queues[c] == [] || c !in w.links || w.links[c].queue == [] {
      return;
    }
    forall d | d in w'.manager.queues && d in w'.links ensures CourseOk(w', d, d in stranded) {
      assert CourseOk(w, d, d in stranded);
      if d == c {
        DeliverKeepsCourse(w, c, c in stranded);
      }
    }
  }

  lemma LeaveKeepsCourses(w: World, c: string, stranded: set<string>)
    requires CoursesOk(w, stranded)
    ensures CoursesOk(Next(w, Leave(c)), stranded)
  {
    hide Course, HasMarker;
    var w' := Next(w, Leave(c));
    forall d | d in w'.manager.queues && d in w'.links ensures CourseOk(w', d, d in stranded) {
      assert CourseOk(w, d, d in stranded);
    }
  }

  lemma JoinKeepsCourses(w: World, c: string, knownInstance: Option<string>, fromSequence: Option<int>,
                         stranded: set<string>)
    requires Inv(w) && CoursesOk(w, stranded)
    ensures var step := Join(c, knownInstance, fromSequence);
            CoursesOk(Next(w, step), StrandedBy(w, step, stranded))
  {
    hide Inv, Course, HasMarker, Greeting, OfferAll, OfferAllLink, Strands, Overclaims;
    var step := Join(c, knownInstance, fromSequence);
    if c in w.manager.queues || w.manager.AtCapacity() {
      return;
    }
    var w', stranded' := Next(w, step), StrandedBy(w, step, stranded);
    JoinedCourse(w, c, knownInstance, fromSequence);
    forall d | d in w'.manager.queues && d in w'.links ensures CourseOk(w', d, d in stranded') {
      if d != c {
        assert CourseOk(w, d, d in stranded);
      }
    }
  }

  lemma NextKeepsCourses(w: World, step: Step, stranded: set<string>)
    requires Inv(w) && CoursesOk(w, stranded)
    ensures CoursesOk(Next(w, step), StrandedBy(w, step, stranded))
  {
    hide Inv, CoursesOk, Next;
    match step
    case Sample(s) => SampleKeepsCourses(w, s, stranded);
    case Beat => BeatKeepsCourses(w, stranded);
    case Join(c, i, f) => JoinKeepsCourses(w, c, i, f, stranded);
    case Deliver(c) => DeliverKeepsCourses(w, c, stranded);
    case Leave(c) => LeaveKeepsCourses(w, c, stranded);
  }

  lemma {:induction false} RunKeepsCourses(w: World, steps: seq<Step>, stranded: set<string>)
    requires Inv(w) && CoursesOk(w, stranded)
    ensures CoursesOk(Run(w, steps), StrandedAfter(w, steps, stranded))
    decreases |steps|
  {
    hide Inv, CoursesOk, Next, StrandedBy;
    if steps != [] {
      NextKeepsInv(w, steps[0]);
      NextKeepsCourses(w, steps[0], stranded);
      RunKeepsCourses(Next(w, steps[0]), steps[1..], StrandedBy(w, steps[0], stranded));
    }
  }

  // ----------------------------------------------------------------------------
  // Who is left behind
  // ----------------------------------------------------------------------------

  /** Over every run: a connected client whose queue is drained and that was delivered no
      resync notice on this connection is level with the manager exactly when its last
      connection did not strand it; a level one shows the newest sample. */
  lemma DrainedLevelIff(m: ManagerState, steps: seq<Step>, c: string)
    requires m.queueSize >= 1 && m == Start(m.instanceId, m.replaySize, m.queueSize, m.maxConnections)
    requires var w := RunFromStart(m, steps);
             && c in w.manager.queues && w.manager.queues[c] == []
             && c in w.links && !HasMarker(w.links[c].delivered)
    ensures var w := RunFromStart(m, steps);
            && c in w.clients
            && (w.clients[c].sequence == w.manager.sequence <==> c !in StrandedAfter(StartWorld(m), steps, {}))
            && (w.clients[c].sequence == w.manager.sequence && w.lastSample.Some? ==>
                  w.clients[c].view.Some? && Equivalent(w.clients[c].view.value, w.lastSample.value))
  {
    hide Inv, Run, StrandedAfter, LinkOk, Equivalent, Tracks, ManagerOk;
    StartInv(m.instanceId, m.replaySize, m.queueSize, m.maxConnections);
    FromStartInv(m, steps);
    RunKeepsCourses(StartWorld(m), steps, {});
    var w := RunFromStart(m, steps);
    LinkOfConnected(w, c);
    assert CourseOk(w, c, c in StrandedAfter(StartWorld(m), steps, {}));
    if w.clients[c].sequence == w.manager.sequence {
      LevelShowsNewest(w, c);
    }
  }

  lemma LevelShowsNewest(w: World, c: string)
    requires Inv(w) && c in w.clients && w.clients[c].sequence == w.manager.sequence
    ensures w.lastSample.Some? ==>
              w.clients[c].view.Some? && Equivalent(w.clients[c].view.value, w.lastSample.value)
  {
    hide CoreOf, LinksFit, ConnectionOk, Transmitted;
    assert Tracks(w.log, w.clients[c]);
  }
}
