/** Runs in which the dashboard's client drifts, and one after which nothing ever tells it. */
module DashboardWitnesses {
  import opened Common
  import opened Delta
  import opened Replay
  import opened Manager
  import opened Backpressure
  import opened Synchronisation
  import opened Dashboard

  import Restarts
  import Stranding

  function Play(s: Site, events: seq<Event>): Site
  {
    if events == [] then s else Happens(Play(s, events[..|events| - 1]), events[|events| - 1])
  }

  lemma PlayNext(s: Site, events: seq<Event>, ev: Event)
    ensures Play(s, events + [ev]) == Happens(Play(s, events), ev)
  {
    hide Happens;
    assert (events + [ev])[..|events|] == events;
  }

  lemma {:induction false} PlayAll(s: Site, a: seq<Event>, b: seq<Event>)
    ensures Play(s, a + b) == Play(Play(s, a), b)
  {
    hide Happens;
    if b == [] {
      assert a + b == a;
    } else {
      PlayAll(s, a, b[..|b| - 1]);
      assert (a + b)[..|a + b| - 1] == a + b[..|b| - 1];
    }
  }

  lemma {:induction false} PlayKeepsSite(s: Site, events: seq<Event>)
    requires SiteInv(s)
    ensures SiteInv(Play(s, events))
  {
    hide SiteInv, Happens;
    if events != [] {
      PlayKeepsSite(s, events[..|events| - 1]);
      EventKeepsSite(Play(s, events[..|events| - 1]), events[|events| - 1]);
    }
  }

  lemma {:induction false} PlayIsRun(m: ManagerState, events: seq<Event>, n: nat)
    requires n <= |events|
    ensures SiteAfter(m, events, n) == Play(Site(StartWorld(m), map[], {m.instanceId}), events[..n])
  {
    hide Happens;
    if n > 0 {
      PlayIsRun(m, events, n - 1);
      assert events[..n] == events[..n - 1] + [events[n - 1]];
      PlayNext(Site(StartWorld(m), map[], {m.instanceId}), events[..n - 1], events[n - 1]);
    }
  }

  // ----------------------------------------------------------------------------
  // A first snapshot that is lost
  // ----------------------------------------------------------------------------

  /** The server has a room and no samples yet, and the browser holds nothing of it. */
  predicate Awaits(s: Site, c: string)
  {
    var m := s.world.manager;
    && m == Start(m.instanceId, m.replaySize, m.queueSize, m.maxConnections)
    && m.queueSize >= 2 && m.maxConnections >= 1 && s.world.sent == []
    && FlowOf(s, c).instance != Some(m.instanceId)
  }

  /** The queue holds everything sent so far, the snapshot first, and the browser is open. */
  predicate Waiting(s: Site, c: string, sent: nat, latest: Snapshot)
  {
    var m := s.world.manager;
    && c in m.queues && m.queues[c] == s.world.sent && |s.world.sent| == sent >= 1
    && m.latest == Some(latest) && m.queueSize >= 2
    && FlowOf(s, c).open && FlowOf(s, c).instance != Some(m.instanceId)
    && (FlowOf(s, c).instance.None? ==> FlowOf(s, c).sequence.None?)
  }

  lemma SampledFirst(s: Site, a: Snapshot, c: string)
    requires Awaits(s, c)
    ensures var s', m := Happens(s, Sampled(a)), s.world.manager;
            && s'.world.manager == m.(sequence := 1, latest := Some(a), ring := s'.world.manager.ring)
            && s'.world.sent == [Envelope(1, m.instanceId, SnapshotPayload(a))] && FlowOf(s', c) == FlowOf(s, c)
  {
    hide DeltaBetween;
    assert Happens(s, Sampled(a)).world.manager.queues == map[];
  }

  lemma ConnectedFirst(s: Site, a: Snapshot, c: string)
    requires s.world.manager.latest == Some(a) && c !in s.world.manager.queues && !s.world.manager.AtCapacity()
    requires s.world.sent == [Envelope(s.world.manager.sequence, s.world.manager.instanceId, SnapshotPayload(a))]
    requires s.world.manager.queueSize >= 2 && FlowOf(s, c).instance != Some(s.world.manager.instanceId)
    requires FlowOf(s, c).instance.None? ==> FlowOf(s, c).sequence.None?
    ensures Waiting(Happens(s, Connects(c)), c, 1, a)
    ensures FlowOf(Happens(s, Connects(c)), c) == FlowOf(s, c).(open := true)
  {
    var m, f := s.world.manager, FlowOf(s, c);
    var known := f.instance.Some? && f.sequence.Some?;
    var g := Greeting(m, if known then f.instance else None, if known then f.sequence else None);
    assert g == s.world.sent;
    FitsWhole(g, m.SlowClientMarker(), m.queueSize);
  }

  lemma {:induction false} FitsWhole(ms: seq<Envelope>, marker: Envelope, size: nat)
    requires |ms| <= size
    ensures OfferAll([], ms, marker, size) == ms
  {
    if ms != [] {
      FitsWhole(ms[..|ms| - 1], marker, size);
      assert ms == ms[..|ms| - 1] + [ms[|ms| - 1]];
    }
  }

  /** Alternating samples, each a change. */
  function Flood(a: Snapshot, b: Snapshot, n: nat): seq<Event>
  {
    if n == 0 then [] else Flood(a, b, n - 1) + [Sampled(if n % 2 == 1 then b else a)]
  }

  function LastOf(a: Snapshot, b: Snapshot, n: nat): Snapshot
  {
    if n % 2 == 1 then b else a
  }

  lemma ChangeIsSent(a: Snapshot, b: Snapshot, n: nat)
    requires !Equivalent(a, b) && n > 0
    ensures DeltaBetween(LastOf(a, b, n - 1), LastOf(a, b, n)).Some?
  {
    hide Equivalent, DeltaBetween;
    NoDeltaIffEquivalent(a, b);
    NoDeltaIffEquivalent(b, a);
    EquivalentSymmetric(a, b);
  }

  lemma EquivalentSymmetric(a: Snapshot, b: Snapshot)
    ensures Equivalent(a, b) <==> Equivalent(b, a)
  {
  }

  lemma OneMoreWaits(s: Site, c: string, sent: nat, before: Snapshot, x: Snapshot)
    requires Waiting(s, c, sent, before) && sent < s.world.manager.queueSize && DeltaBetween(before, x).Some?
    ensures Waiting(Happens(s, Sampled(x)), c, sent + 1, x)
    ensures FlowOf(Happens(s, Sampled(x)), c) == FlowOf(s, c)
    ensures Happens(s, Sampled(x)).world.manager.queueSize == s.world.manager.queueSize
    ensures Happens(s, Sampled(x)).world.manager.instanceId == s.world.manager.instanceId
  {
    hide DeltaBetween, OfferLinks, Push;
  }

  lemma {:induction false} FloodWaits(s: Site, c: string, a: Snapshot, b: Snapshot, n: nat)
    requires Waiting(s, c, 1, a) && !Equivalent(a, b) && n < s.world.manager.queueSize
    ensures var s' := Play(s, Flood(a, b, n));
            && Waiting(s', c, n + 1, LastOf(a, b, n)) && FlowOf(s', c) == FlowOf(s, c)
            && s'.world.manager.queueSize == s.world.manager.queueSize
            && s'.world.manager.instanceId == s.world.manager.instanceId
  {
    hide Happens, Waiting, Equivalent, DeltaBetween;
    if n > 0 {
      FloodWaits(s, c, a, b, n - 1);
      ChangeIsSent(a, b, n);
      PlayNext(s, Flood(a, b, n - 1), Sampled(LastOf(a, b, n)));
      OneMoreWaits(Play(s, Flood(a, b, n - 1)), c, n, LastOf(a, b, n - 1), LastOf(a, b, n));
    }
  }

  /** One change more than the queue can take: the snapshot is lost, a delta comes first. */
  lemma SnapshotIsLost(s: Site, c: string, before: Snapshot, x: Snapshot)
    requires SiteInv(s) && Waiting(s, c, s.world.manager.queueSize, before) && DeltaBetween(before, x).Some?
    ensures var s' := Happens(s, Sampled(x));
            && CanDeliver(s'.world, c) && FlowOf(s', c) == FlowOf(s, c)
            && s'.world.manager.queues[c][0] == s.world.sent[1]
            && s'.world.manager.sequence == s.world.manager.queueSize + 1
            && s'.world.manager.instanceId == s.world.manager.instanceId
  {
    hide DeltaBetween, OfferLinks, Push, Inv, Restarts.OwnMessages, FlowOk, CourseOk;
    SiteParts(s);
    EventKeepsSite(s, Sampled(x));
    LinkedQueue(Happens(s, Sampled(x)), c);
  }

  lemma LinkedQueue(s: Site, c: string)
    requires SiteInv(s) && c in s.world.manager.queues
    ensures c in s.world.links && s.world.links[c].queue == s.world.manager.queues[c]
  {
    hide Restarts.OwnMessages, FlowOk, CourseOk, ConnectionOk, ManagerOk, Tracks, LinkOk;
  }

  lemma SecondIsDelta(s: Site)
    requires SiteInv(s) && |s.world.sent| >= 2
    ensures s.world.sent[1].payload.DeltaPayload? && s.world.sent[1].sequence == 2
  {
    hide LinksFit, ConnectionOk, Tracks, Restarts.OwnMessages, FlowOk, CourseOk, DeltaBetween, Equivalent, RingOf;
  }

  /** The next message is the delta of sequence two, and makes the browser drift. */
  predicate AboutToDrift(s: Site, c: string)
  {
    && CanDeliver(s.world, c)
    && var e := s.world.manager.queues[c][0];
       Drifts(FlowOf(s, c), e) && e.sequence == 2 && e.serverInstanceId == s.world.manager.instanceId
  }

  lemma OverflowDrifts(s: Site, c: string, before: Snapshot, x: Snapshot)
    requires SiteInv(s) && Waiting(s, c, s.world.manager.queueSize, before) && DeltaBetween(before, x).Some?
    ensures var s' := Happens(s, Sampled(x));
            && SiteInv(s') && AboutToDrift(s', c) && FlowOf(s', c) == FlowOf(s, c)
            && s'.world.manager.sequence == s.world.manager.queueSize + 1
            && s'.world.manager.instanceId == s.world.manager.instanceId
  {
    hide SiteInv, Happens, DeltaBetween, Genuine, Inv, Restarts.OwnMessages, LinksFit;
    SnapshotIsLost(s, c, before, x);
    SecondIsDelta(s);
    EventKeepsSite(s, Sampled(x));
    var s' := Happens(s, Sampled(x));
    SiteParts(s');
    HeadGenuine(s'.world, c);
  }

  /** After as many changes as the queue is long, the first thing delivered makes the browser
      drift. */
  lemma FloodDrifts(s: Site, c: string, a: Snapshot, b: Snapshot)
    requires SiteInv(s) && Waiting(s, c, 1, a) && !Equivalent(a, b)
    ensures var n := s.world.manager.queueSize;
            var s' := Play(s, Flood(a, b, n));
            && SiteInv(s') && AboutToDrift(s', c) && FlowOf(s', c) == FlowOf(s, c)
            && s'.world.manager.sequence == n + 1
            && s'.world.manager.instanceId == s.world.manager.instanceId
  {
    hide SiteInv, Happens, Equivalent, DeltaBetween, Waiting, AboutToDrift, Play;
    var n := s.world.manager.queueSize;
    WaitingRoom(s, c, 1, a);
    var x := LastOf(a, b, n);
    FloodWaits(s, c, a, b, n - 1);
    PlayKeepsSite(s, Flood(a, b, n - 1));
    ChangeIsSent(a, b, n);
    PlayNext(s, Flood(a, b, n - 1), Sampled(x));
    OverflowDrifts(Play(s, Flood(a, b, n - 1)), c, LastOf(a, b, n - 1), x);
  }

  lemma WaitingRoom(s: Site, c: string, sent: nat, latest: Snapshot)
    requires Waiting(s, c, sent, latest)
    ensures s.world.manager.queueSize >= 2
  {
  }

  lemma StartAwaits(m: ManagerState, c: string)
    requires Startable(m) && m.queueSize >= 2 && m.maxConnections >= 1
    ensures Awaits(Site(StartWorld(m), map[], {m.instanceId}), c)
  {
  }

  /** Sampled and connected, the browser waits for its first snapshot. */
  lemma FirstWait(s: Site, c: string, a: Snapshot)
    requires Awaits(s, c) && (FlowOf(s, c).instance.None? ==> FlowOf(s, c).sequence.None?)
    ensures var s' := Happens(Happens(s, Sampled(a)), Connects(c));
            && Waiting(s', c, 1, a) && FlowOf(s', c) == FlowOf(s, c).(open := true)
            && s'.world.manager.queueSize == s.world.manager.queueSize
            && s'.world.manager.instanceId == s.world.manager.instanceId
  {
    hide Happens, Waiting;
    SampledFirst(s, a, c);
    ConnectedFirst(Happens(s, Sampled(a)), a, c);
    EventKeepsSize(Happens(s, Sampled(a)), Connects(c));
    ConnectKeepsInstance(Happens(s, Sampled(a)), c);
  }

  lemma ConnectKeepsInstance(s: Site, c: string)
    ensures Happens(s, Connects(c)).world.manager.instanceId == s.world.manager.instanceId
    ensures Happens(s, Connects(c)).used == s.used
  {
    hide Greeting, OfferAll, OfferAllLink;
  }

  function LostSnapshot(m: ManagerState, a: Snapshot, b: Snapshot, c: string): seq<Event>
  {
    [Sampled(a), Connects(c)] + Flood(a, b, m.queueSize) + [Delivered(c)]
  }

  lemma TwoEvents(s: Site, a: Event, b: Event)
    ensures Play(s, [a, b]) == Happens(Happens(s, a), b)
  {
    hide Happens;
    assert [a, b] == [a] + [b] && [a] == [] + [a];
    PlayNext(s, [a], b);
    PlayNext(s, [], a);
  }

  /** On every manager whose queues hold two messages or more: one sample, a connection, and
      as many changes as a queue is long, and the first delivery makes the client drift. */
  lemma LostSnapshotDrifts(m: ManagerState, a: Snapshot, b: Snapshot, c: string)
    requires Startable(m) && m.queueSize >= 2 && m.maxConnections >= 1 && !Equivalent(a, b)
    ensures var events := LostSnapshot(m, a, b, c); DriftsAt(m, events, |events| - 1, c)
  {
    hide SiteInv, Happens, Equivalent, Waiting, Awaits, Drifts, SiteAfter, Flood;
    var events, start := LostSnapshot(m, a, b, c), Site(StartWorld(m), map[], {m.instanceId});
    var opening, n := [Sampled(a), Connects(c)], |events| - 1;
    FreshSite(m);
    StartAwaits(m, c);
    FirstWait(start, c, a);
    TwoEvents(start, Sampled(a), Connects(c));
    PlayKeepsSite(start, opening);
    FloodDrifts(Play(start, opening), c, a, b);
    PlayAll(start, opening, Flood(a, b, m.queueSize));
    assert events[..n] == opening + Flood(a, b, m.queueSize);
    PlayIsRun(m, events, n);
  }

  // ----------------------------------------------------------------------------
  // A drift that nothing ends
  // ----------------------------------------------------------------------------

  predicate About(ev: Event, c: string)
  {
    match ev
    case Connects(d) => d == c
    case Delivered(d) => d == c
    case Disconnects(d) => d == c
    case _ => true
  }

  predicate Alone(s: Site, c: string, m: ManagerState)
  {
    && s.world.manager.queues.Keys <= {c} && s.world.manager.maxConnections == m.maxConnections
    && s.world.manager.replaySize == m.replaySize && s.world.manager.queueSize == m.queueSize
  }

  lemma StaysAlone(s: Site, ev: Event, c: string, m: ManagerState)
    requires Alone(s, c, m) && About(ev, c)
    ensures Alone(Happens(s, ev), c, m)
  {
    hide DeltaBetween, OfferLinks, Offer, Greeting, OfferAll, OfferAllLink, Receive, Follow;
    match ev
    case Sampled(x) => StepAlone(s.world, Sample(x));
    case Beaten => StepAlone(s.world, Beat);
    case Connects(_) =>
    case Delivered(_) => StepAlone(s.world, Deliver(c));
    case Disconnects(_) => StepAlone(s.world, Leave(c));
    case Restarted(_) =>
  }

  lemma StepAlone(w: World, step: Step)
    requires !step.Join?
    ensures var m, m' := w.manager, Next(w, step).manager;
            && m'.queues.Keys <= m.queues.Keys && m'.maxConnections == m.maxConnections
            && m'.replaySize == m.replaySize && m'.queueSize == m.queueSize
  {
    hide DeltaBetween, OfferLinks, Offer, Receive;
  }

  lemma {:induction false} PlaysAlone(s: Site, events: seq<Event>, c: string, m: ManagerState)
    requires Alone(s, c, m) && forall i :: 0 <= i < |events| ==> About(events[i], c)
    ensures Alone(Play(s, events), c, m)
  {
    hide Happens, Alone, About;
    if events != [] {
      PlaysAlone(s, events[..|events| - 1], c, m);
      StaysAlone(Play(s, events[..|events| - 1]), events[|events| - 1], c, m);
    }
  }

  lemma {:induction false} FloodAbout(a: Snapshot, b: Snapshot, n: nat, c: string)
    ensures forall i :: 0 <= i < |Flood(a, b, n)| ==> About(Flood(a, b, n)[i], c)
  {
    if n > 0 {
      FloodAbout(a, b, n - 1, c);
    }
  }

  function Drain(c: string, n: nat): seq<Event>
  {
    seq(n, _ => Delivered(c))
  }

  /** So much of a replay is still queued, and the browser has followed the rest. */
  predicate Draining(s: Site, c: string, g: seq<Envelope>, k: nat)
  {
    && c in s.world.manager.queues && k <= |g| && s.world.manager.queues[c] == g[k..]
    && FlowOf(s, c) == Flow(Some(s.world.manager.instanceId), Some(2 + k), true, true)
    && Restarts.AllFrom(g, s.world.manager.instanceId)
    && forall i :: 0 <= i < |g| ==> g[i].payload.DeltaPayload? && g[i].sequence == 3 + i
  }

  lemma DrainsOne(s: Site, c: string, g: seq<Envelope>, k: nat)
    requires SiteInv(s) && Draining(s, c, g, k) && k < |g|
    ensures Draining(Happens(s, Delivered(c)), c, g, k + 1)
    ensures Happens(s, Delivered(c)).world.lastSample == s.world.lastSample
  {
    hide SiteInv, Receive;
    LinkedQueue(s, c);
    assert g[k..][1..] == g[k + 1..];
  }

  lemma {:induction false} DrainsAll(s: Site, c: string, g: seq<Envelope>, n: nat)
    requires SiteInv(s) && Draining(s, c, g, 0) && n <= |g|
    ensures Draining(Play(s, Drain(c, n)), c, g, n) && SiteInv(Play(s, Drain(c, n)))
    ensures Play(s, Drain(c, n)).world.lastSample == s.world.lastSample
  {
    hide SiteInv, Happens, Draining;
    if n > 0 {
      DrainsAll(s, c, g, n - 1);
      assert Drain(c, n) == Drain(c, n - 1) + [Delivered(c)];
      PlayNext(s, Drain(c, n - 1), Delivered(c));
      DrainsOne(Play(s, Drain(c, n - 1)), c, g, n - 1);
      EventKeepsSite(Play(s, Drain(c, n - 1)), Delivered(c));
    }
  }

  /** A browser that drifted to sequence two, and lost its connection before the marker
      came. */
  predicate Returns(s: Site, c: string)
  {
    var m := s.world.manager;
    && m.queues == map[] && m.maxConnections >= 1 && m.replaySize >= m.queueSize >= 2 && m.sequence == m.queueSize + 1
    && FlowOf(s, c) == Flow(Some(m.instanceId), Some(2), false, true)
  }

  lemma ReturnReplays(s: Site, c: string)
    requires SiteInv(s) && Returns(s, c)
    ensures var reply := MessagesSince(s.world.manager.ring, 2);
            reply.Some? && Draining(Happens(s, Connects(c)), c, reply.value, 0)
            && |reply.value| == s.world.manager.queueSize - 1
    ensures Happens(s, Connects(c)).world.lastSample == s.world.lastSample
  {
    hide SiteInv, MessagesSince, OfferAll, OfferAllLink, Restarts.OwnMessages;
    var w, m := s.world, s.world.manager;
    SiteParts(s);
    RingReaches(w);
    ReplayedDeltas(w, 2);
    var g := MessagesSince(m.ring, 2).value;
    assert Greeting(m, Some(m.instanceId), Some(2)) == g;
    OwnRing(w);
    Restarts.GreetingFromOwn(m, Some(m.instanceId), Some(2));
    FitsWhole(g, m.SlowClientMarker(), m.queueSize);
    assert g[0..] == g;
  }

  lemma OwnRing(w: World)
    requires Restarts.OwnMessages(w)
    ensures Restarts.AllFrom(w.manager.ring, w.manager.instanceId)
  {
  }

  lemma RingReaches(w: World)
    requires Inv(w) && w.manager.replaySize >= w.manager.queueSize >= 2
    requires w.manager.sequence == w.manager.queueSize + 1
    ensures MessagesSince(w.manager.ring, 2).Some? && |w.log| >= 2
  {
    hide LinksFit, ConnectionOk, Tracks, DeltaBetween, Equivalent, MessagesSince;
    ReplayExact(w.sent, w.manager.replaySize, 2);
  }

  /** Resuming, it stays adrift: the queue runs empty without a marker. */
  lemma ReturnStaysAdrift(s: Site, c: string)
    requires SiteInv(s) && Returns(s, c)
    ensures var s' := Play(s, [Connects(c)] + Drain(c, s.world.manager.queueSize - 1));
            && c in s'.world.manager.queues && s'.world.manager.queues[c] == []
            && FlowOf(s', c).open && FlowOf(s', c).adrift && s'.world.lastSample == s.world.lastSample
  {
    hide SiteInv, Happens, MessagesSince;
    var n := s.world.manager.queueSize - 1;
    ReturnReplays(s, c);
    EventKeepsSite(s, Connects(c));
    PlayAll(s, [Connects(c)], Drain(c, n));
    assert [Connects(c)] == [] + [Connects(c)];
    PlayNext(s, [], Connects(c));
    DrainsAll(Happens(s, Connects(c)), c, MessagesSince(s.world.manager.ring, 2).value, n);
  }

  lemma FirstIsSnapshot(s: Site, c: string)
    requires SiteInv(s) && s.world.sent != []
    requires c in s.world.manager.queues && s.world.manager.queues[c] == s.world.sent
    ensures var e := s.world.sent[0];
            e.payload.SnapshotPayload? && e.sequence == 1 && e.serverInstanceId == s.world.manager.instanceId
    ensures CanDeliver(s.world, c)
  {
    hide LinksFit, ConnectionOk, Tracks, Restarts.OwnMessages, FlowOk, CourseOk, DeltaBetween, Equivalent, RingOf;
    hide Genuine;
    HeadGenuine(s.world, c);
    LinkedQueue(s, c);
  }

  /** Level with a first server, then met by a second one that has no samples yet. */
  function Earlier(a: Snapshot, c: string, second: string): seq<Event>
  {
    [Sampled(a), Connects(c)] + [Delivered(c), Restarted(second)]
  }

  lemma EarlierAwaits(m: ManagerState, a: Snapshot, c: string, second: string)
    requires Startable(m) && m.queueSize >= 2 && m.maxConnections >= 1 && second != m.instanceId
    ensures var s := Play(Site(StartWorld(m), map[], {m.instanceId}), Earlier(a, c, second));
            && SiteInv(s) && Awaits(s, c) && s.world.manager.instanceId == second
            && FlowOf(s, c) == Flow(Some(m.instanceId), Some(1), false, false)
            && Alone(s, c, m)
  {
    hide SiteInv, Awaits, Happens, Alone;
    var start, opening := Site(StartWorld(m), map[], {m.instanceId}), [Sampled(a), Connects(c)];
    FreshSite(m);
    StartAwaits(m, c);
    FirstWait(start, c, a);
    TwoEvents(start, Sampled(a), Connects(c));
    PlayKeepsSite(start, opening);
    PlayAll(start, opening, [Delivered(c), Restarted(second)]);
    var s := Play(start, opening);
    TwoEvents(s, Delivered(c), Restarted(second));
    FirstIsSnapshot(s, c);
    SampleKeepsUsed(start, a);
    ConnectKeepsInstance(Happens(start, Sampled(a)), c);
    DeliversFirst(s, c);
    EventKeepsSite(s, Delivered(c));
    EventKeepsSite(Happens(s, Delivered(c)), Restarted(second));
    StartsAlone(m, c);
    PlaysAlone(start, Earlier(a, c, second), c, m);
    RestartAwaits(Happens(s, Delivered(c)), c, second, m);
  }

  lemma StartsAlone(m: ManagerState, c: string)
    requires Startable(m)
    ensures Alone(Site(StartWorld(m), map[], {m.instanceId}), c, m)
  {
  }

  lemma SampleKeepsUsed(s: Site, a: Snapshot)
    ensures Happens(s, Sampled(a)).used == s.used
  {
    hide Next;
  }

  lemma DeliversFirst(s: Site, c: string)
    requires CanDeliver(s.world, c) && FlowOf(s, c).open
    requires var e := s.world.manager.queues[c][0];
             e.payload.SnapshotPayload? && e.sequence == 1 && e.serverInstanceId == s.world.manager.instanceId
    ensures var s' := Happens(s, Delivered(c));
            && FlowOf(s', c) == Flow(Some(s.world.manager.instanceId), Some(1), true, false) && s'.used == s.used
            && s'.world.manager.instanceId == s.world.manager.instanceId
  {
    hide Receive;
  }

  lemma RestartAwaits(s: Site, c: string, second: string, m: ManagerState)
    requires second !in s.used && FlowOf(s, c) == Flow(Some(m.instanceId), Some(1), true, false)
    requires second != m.instanceId && m.queueSize >= 2 && m.maxConnections >= 1
    requires Alone(Happens(s, Restarted(second)), c, m)
    ensures var s' := Happens(s, Restarted(second));
            && Awaits(s', c) && s'.world.manager.instanceId == second
            && FlowOf(s', c) == Flow(Some(m.instanceId), Some(1), false, false)
  {
  }

  /** A second server floods the queue, the browser takes the delta, and its connection ends. */
  function Forever(m: ManagerState, a: Snapshot, b: Snapshot, c: string, second: string): seq<Event>
    requires m.queueSize >= 1
  {
    Earlier(a, c, second) + ([Sampled(a), Connects(c)] + (Flood(a, b, m.queueSize)
    + ([Delivered(c), Disconnects(c)] + ([Connects(c)] + Drain(c, m.queueSize - 1)))))
  }

  lemma DriftsAndLeaves(s: Site, c: string, m: ManagerState)
    requires SiteInv(s) && AboutToDrift(s, c)
    requires FlowOf(s, c).instance.Some? && Alone(s, c, m) && s.world.manager.sequence == m.queueSize + 1
    requires m.maxConnections >= 1 && m.replaySize >= m.queueSize >= 2
    ensures var s' := Play(s, [Delivered(c), Disconnects(c)]);
            Returns(s', c) && s'.world.manager.queueSize == m.queueSize
  {
    hide SiteInv, Happens;
    var s1 := Happens(s, Delivered(c));
    TwoEvents(s, Delivered(c), Disconnects(c));
    DriftDelivered(s, c);
    StaysAlone(s, Delivered(c), c, m);
    LeavesAlone(s1, c, m);
  }

  lemma DriftDelivered(s: Site, c: string)
    requires AboutToDrift(s, c) && FlowOf(s, c).instance.Some?
    ensures var s', m := Happens(s, Delivered(c)), s.world.manager;
            && FlowOf(s', c) == Flow(Some(m.instanceId), Some(2), true, true)
            && s'.world.manager.instanceId == m.instanceId && s'.world.manager.sequence == m.sequence
  {
    hide Receive;
  }

  lemma LeavesAlone(s: Site, c: string, m: ManagerState)
    requires Alone(s, c, m)
    ensures var s' := Happens(s, Disconnects(c));
            && s'.world.manager == s.world.manager.(queues := map[]) && FlowOf(s', c) == FlowOf(s, c).(open := false)
  {
    assert (s.world.manager.queues - {c}).Keys == {};
  }

  lemma ForeverDrifts(m: ManagerState, a: Snapshot, b: Snapshot, c: string, second: string)
    requires Startable(m) && m.replaySize >= m.queueSize >= 2 && m.maxConnections >= 1
    requires !Equivalent(a, b) && second != m.instanceId
    ensures var s := Play(Site(StartWorld(m), map[], {m.instanceId}), Earlier(a, c, second));
            var t := Play(Play(s, [Sampled(a), Connects(c)]), Flood(a, b, m.queueSize));
            var u := Play(t, [Delivered(c), Disconnects(c)]);
            SiteInv(t) && Returns(u, c) && u.world.manager.queueSize == m.queueSize
  {
    hide SiteInv, Happens, Equivalent, Waiting, Awaits, AboutToDrift, Flood, Alone, Returns, About;
    var start := Site(StartWorld(m), map[], {m.instanceId});
    EarlierAwaits(m, a, c, second);
    var s := Play(start, Earlier(a, c, second));
    FirstWait(s, c, a);
    TwoEvents(s, Sampled(a), Connects(c));
    var u := Play(s, [Sampled(a), Connects(c)]);
    PlayKeepsSite(s, [Sampled(a), Connects(c)]);
    AwaitsRoom(s, c, m);
    FloodDrifts(u, c, a, b);
    AboutOpening(a, c);
    PlaysAlone(s, [Sampled(a), Connects(c)], c, m);
    FloodAbout(a, b, m.queueSize, c);
    PlaysAlone(u, Flood(a, b, m.queueSize), c, m);
    DriftsAndLeaves(Play(u, Flood(a, b, m.queueSize)), c, m);
  }

  lemma AwaitsRoom(s: Site, c: string, m: ManagerState)
    requires Alone(s, c, m)
    ensures s.world.manager.queueSize == m.queueSize
  {
  }

  lemma AboutOpening(a: Snapshot, c: string)
    ensures forall i :: 0 <= i < |[Sampled(a), Connects(c)]| ==> About([Sampled(a), Connects(c)][i], c)
  {
  }

  lemma ForeverPlays(m: ManagerState, a: Snapshot, b: Snapshot, c: string, second: string)
    requires m.queueSize >= 1
    ensures var start := Site(StartWorld(m), map[], {m.instanceId});
            var s := Play(start, Earlier(a, c, second));
            var t := Play(Play(s, [Sampled(a), Connects(c)]), Flood(a, b, m.queueSize));
            SiteAfter(m, Forever(m, a, b, c, second), |Forever(m, a, b, c, second)|)
            == Play(Play(t, [Delivered(c), Disconnects(c)]), [Connects(c)] + Drain(c, m.queueSize - 1))
  {
    hide Happens, Play, SiteAfter, Flood, Earlier;
    var start, events := Site(StartWorld(m), map[], {m.instanceId}), Forever(m, a, b, c, second);
    var last := [Connects(c)] + Drain(c, m.queueSize - 1);
    var opening, flood, leaving := [Sampled(a), Connects(c)], Flood(a, b, m.queueSize), [Delivered(c), Disconnects(c)];
    var s := Play(start, Earlier(a, c, second));
    PlayIsRun(m, events, |events|);
    assert events[..|events|] == events;
    PlayAll(start, Earlier(a, c, second), opening + (flood + (leaving + last)));
    PlayAll(s, opening, flood + (leaving + last));
    PlayAll(Play(s, opening), flood, leaving + last);
    PlayAll(Play(Play(s, opening), flood), leaving, last);
  }

  /** Where the replay outlasts a queue, a drift can outlive its warning: the connection ends
      before the marker arrives, the client resumes from its sequence, and ends connected,
      drained and level without showing the newest sample. */
  lemma DriftCanLast(m: ManagerState, a: Snapshot, b: Snapshot, c: string, second: string)
    requires Startable(m) && m.replaySize >= m.queueSize >= 2 && m.maxConnections >= 1
    requires !Equivalent(a, b) && second != m.instanceId
    ensures var events := Forever(m, a, b, c, second);
            var n, s := |events|, SiteAfter(m, events, |events|);
            && c in s.world.manager.queues && s.world.manager.queues[c] == [] && FlowOf(s, c).open
            && FlowOf(s, c).adrift && FlowOf(s, c).sequence == Some(s.world.manager.sequence)
            && s.world.lastSample.Some? && exists fill :: !ShowsNewest(m, events, n, c, fill)
  {
    hide SiteInv, Happens, Equivalent, Flood, Returns, Earlier, Forever, SiteAfter, ShowsNewest;
    var events := Forever(m, a, b, c, second);
    var start := Site(StartWorld(m), map[], {m.instanceId});
    var s := Play(start, Earlier(a, c, second));
    var t := Play(Play(s, [Sampled(a), Connects(c)]), Flood(a, b, m.queueSize));
    ForeverDrifts(m, a, b, c, second);
    ForeverPlays(m, a, b, c, second);
    PlayKeepsSite(t, [Delivered(c), Disconnects(c)]);
    var u := Play(t, [Delivered(c), Disconnects(c)]);
    ReturnHasSample(u, c);
    ReturnStaysAdrift(u, c);
    OpenDrainedIff(m, events, |events|, c);
  }

  lemma ReturnHasSample(s: Site, c: string)
    requires SiteInv(s) && Returns(s, c)
    ensures s.world.lastSample.Some?
  {
    hide LinksFit, ConnectionOk, Tracks, Restarts.OwnMessages, FlowOk, CourseOk, Transmitted, Equivalent;
  }
}
