/** The dashboard's own client, and runs of it against the connection manager. Its continuity
    check is skipped while it holds no sequence, so that it can take a delta without ever
    having taken the snapshot below it. */
module Dashboard {
  import opened Common
  import opened Delta
  import opened Entities
  import opened Replay
  import opened Manager
  import opened Backpressure
  import opened Synchronisation

  import Restarts
  import Stranding

  // ----------------------------------------------------------------------------
  // The client
  // ----------------------------------------------------------------------------

  /** What decides how the client reads a message. It is `adrift` while its sequence rests on
      a delta that it took without holding one. */
  datatype Flow = Flow(instance: Option<string>, sequence: Option<int>, open: bool, adrift: bool)

  const STRANGER := Flow(None, None, false, false)

  /** A message of another server instance takes the sequence away. */
  function Recognise(f: Flow, e: Envelope): Flow
  {
    if f.instance.Some? && f.instance.value != e.serverInstanceId
    then f.(instance := Some(e.serverInstanceId), sequence := None, adrift := false)
    else f
  }

  /** The client closes its connection and asks for a full snapshot when it reconnects. */
  function Resynced(f: Flow): Flow
  {
    f.(sequence := None, open := false, adrift := false)
  }

  function Follow(f: Flow, e: Envelope): Flow
  {
    if !f.open then f
    else
      var k := Recognise(f, e);
      match e.payload
      case SnapshotPayload(_) => Flow(Some(e.serverInstanceId), Some(e.sequence), true, false)
      case DeltaPayload(_) =>
        if k.sequence.None? then k.(sequence := Some(e.sequence), adrift := true)
        else if e.sequence <= k.sequence.value then k
        else if e.sequence > k.sequence.value + 1 then Resynced(k)
        else k.(sequence := Some(e.sequence))
      case HeartbeatPayload => k
      case ResyncPayload(_) => Resynced(k)
  }

  /** What the client shows after a message; `loaded` is what its cache holds at that moment
      if it has no sequence. */
  function Shown(f: Flow, view: Option<Snapshot>, e: Envelope, loaded: Snapshot): Option<Snapshot>
  {
    if !f.open then view
    else
      var k := Recognise(f, e);
      match e.payload
      case SnapshotPayload(s) => Some(s)
      case DeltaPayload(d) =>
        if k.sequence.None? then Some(Apply(loaded, d))
        else if e.sequence == k.sequence.value + 1 then Some(Apply(GetOr(view, loaded), d))
        else view
      case _ => view
  }

  /** The message is a delta, and the client has no sequence to check it against. */
  predicate Drifts(f: Flow, e: Envelope)
  {
    f.open && e.payload.DeltaPayload? && Recognise(f, e).sequence.None?
  }

  class RealtimeClient {
    var serverInstanceId: Option<string>
    var lastSequence: Option<int>
    var open: bool
    var view: Option<Snapshot>
    ghost var adrift: bool

    ghost function State(): Flow
      reads this
    {
      Flow(serverInstanceId, lastSequence, open, adrift)
    }

    constructor ()
      ensures State() == STRANGER && view == None
    {
      serverInstanceId, lastSequence, open, view := None, None, false, None;
      adrift := false;
    }

    /** The resumption a reconnecting client asks for. */
    method ConnectionParameters() returns (knownInstance: Option<string>, fromSequence: Option<int>)
      ensures knownInstance.Some? <==> fromSequence.Some?
      ensures knownInstance.Some? <==> serverInstanceId.Some? && lastSequence.Some?
      ensures knownInstance.Some? ==> knownInstance == serverInstanceId && fromSequence == lastSequence
    {
      knownInstance, fromSequence := None, None;
      if serverInstanceId.Some? && lastSequence.Some? {
        knownInstance, fromSequence := serverInstanceId, lastSequence;
      }
    }

    method Resync()
      modifies this`lastSequence, this`open, this`adrift
      ensures State() == Resynced(old(State()))
    {
      lastSequence, open := None, false;
      adrift := false;
    }

    method HandleMessage(e: Envelope, loaded: Snapshot)
      modifies this
      ensures State() == Follow(old(State()), e)
      ensures view == Shown(old(State()), old(view), e, loaded)
    {
      hide Apply;
      if !open {
        return;
      }
      if serverInstanceId.Some? && serverInstanceId.value != e.serverInstanceId {
        serverInstanceId, lastSequence := Some(e.serverInstanceId), None;
        adrift := false;
      }
      match e.payload
      case SnapshotPayload(s) =>
        serverInstanceId, lastSequence, view := Some(e.serverInstanceId), Some(e.sequence), Some(s);
        adrift := false;
      case DeltaPayload(d) =>
        if lastSequence.Some? {
          if e.sequence <= lastSequence.value {
            return;
          }
          if e.sequence > lastSequence.value + 1 {
            Resync();
            return;
          }
        }
        adrift := adrift || lastSequence.None?;
        view := Some(Apply(if lastSequence.None? then loaded else GetOr(view, loaded), d));
        lastSequence := Some(e.sequence);
      case HeartbeatPayload =>
      case ResyncPayload(_) =>
        Resync();
    }
  }

  // ----------------------------------------------------------------------------
  // Runs
  // ----------------------------------------------------------------------------

  /** The running server with its connections, how every browser stands, and the instance ids
      drawn so far. */
  datatype Site = Site(world: World, flows: map<string, Flow>, used: set<string>)

  datatype Event =
    | Sampled(s: Snapshot)
    | Beaten
    | Connects(c: string)
    | Delivered(c: string)
    | Disconnects(c: string)
    | Restarted(instanceId: string)

  function FlowOf(s: Site, c: string): Flow
  {
    if c in s.flows then s.flows[c] else STRANGER
  }

  function Joining(c: string, f: Flow): Step
  {
    if f.instance.Some? && f.sequence.Some? then Join(c, f.instance, f.sequence) else Join(c, None, None)
  }

  predicate CanDeliver(w: World, c: string)
  {
    c in w.manager.queues && w.manager.queues[c] != [] && c in w.links && w.links[c].queue != []
  }

  function Happens(s: Site, ev: Event): Site
  {
    var w, m := s.world, s.world.manager;
    match ev
    case Sampled(x) => s.(world := Next(w, Sample(x)))
    case Beaten => s.(world := Next(w, Beat))
    case Connects(c) =>
      if c in m.queues || m.AtCapacity() then s
      else s.(world := Next(w, Joining(c, FlowOf(s, c))), flows := s.flows[c := FlowOf(s, c).(open := true)])
    case Delivered(c) =>
      if !CanDeliver(w, c) then s
      else s.(world := Next(w, Deliver(c)), flows := s.flows[c := Follow(FlowOf(s, c), m.queues[c][0])])
    case Disconnects(c) =>
      s.(world := Next(w, Leave(c)), flows := s.flows[c := FlowOf(s, c).(open := false)])
    case Restarted(id) =>
      if id in s.used then s
      else Site(StartWorld(Start(id, m.replaySize, m.queueSize, m.maxConnections)),
                map c | c in s.flows :: s.flows[c].(open := false), s.used + {id})
  }

  // ----------------------------------------------------------------------------
  // Following a queue
  // ----------------------------------------------------------------------------

  function FollowAll(f: Flow, q: Queue): Flow
  {
    if q == [] then f else Follow(FollowAll(f, q[..|q| - 1]), q[|q| - 1])
  }

  predicate DriftFree(f: Flow, q: Queue)
  {
    q == [] || (DriftFree(f, q[..|q| - 1]) && !Drifts(FollowAll(f, q[..|q| - 1]), q[|q| - 1]))
  }

  lemma FollowAppend(f: Flow, q: Queue, e: Envelope)
    ensures FollowAll(f, q + [e]) == Follow(FollowAll(f, q), e)
    ensures DriftFree(f, q + [e]) <==> DriftFree(f, q) && !Drifts(FollowAll(f, q), e)
  {
    assert (q + [e])[..|q|] == q;
  }

  lemma {:induction false} FollowHead(f: Flow, q: Queue)
    requires q != []
    ensures FollowAll(f, q) == FollowAll(Follow(f, q[0]), q[1..])
    ensures DriftFree(f, q) <==> !Drifts(f, q[0]) && DriftFree(Follow(f, q[0]), q[1..])
  {
    hide Follow, Drifts;
    if |q| == 1 {
      assert q[..0] == [] && q[1..] == [];
    } else {
      FollowHead(f, q[..|q| - 1]);
      assert q[..|q| - 1][1..] == q[1..][..|q| - 2];
    }
  }

  /** Read to its end, the queue leaves the browser connected and level, without drifting. */
  predicate Smooth(sequence: nat, instanceId: string, f: Flow, q: Queue)
  {
    var end := FollowAll(f, q);
    && DriftFree(f, q) && end.open
    && (sequence > 0 ==> end.instance == Some(instanceId) && end.sequence == Some(sequence))
  }

  ghost predicate CourseOk(w: World, c: string, f: Flow)
    requires c in w.manager.queues
  {
    var m := w.manager;
    f.open ==> HasMarker(m.queues[c]) || Smooth(m.sequence, m.instanceId, f, m.queues[c])
  }

  predicate FlowOk(w: World, used: set<string>, f: Flow)
  {
    && (f.instance.Some? ==> f.instance.value in used)
    && (f.adrift ==> f.sequence.Some?)
    && (f.sequence.Some? && !f.adrift ==> f.instance.Some?)
    && (f.sequence.Some? && f.instance == Some(w.manager.instanceId) ==> 1 <= f.sequence.value <= |w.log|)
  }

  ghost predicate SiteInv(s: Site)
  {
    var w := s.world;
    && Inv(w) && Restarts.OwnMessages(w) && w.manager.instanceId in s.used
    && w.manager.queues.Keys <= s.flows.Keys
    && (forall c :: c in s.flows ==> FlowOk(w, s.used, s.flows[c]))
    && (forall c :: c in w.manager.queues && c in s.flows ==> CourseOk(w, c, s.flows[c]))
  }

  // ----------------------------------------------------------------------------
  // Preservation
  // ----------------------------------------------------------------------------

  /** A broadcast keeps a browser's course, or puts a marker in its queue. */
  lemma OfferKeepsSmooth(sequence: nat, next: nat, f: Flow, q: Queue, e: Envelope, marker: Envelope, size: nat)
    requires size >= 1 && marker.payload.ResyncPayload?
    requires HasMarker(q) || Smooth(sequence, e.serverInstanceId, f, q)
    requires
      || (e.payload.SnapshotPayload? && e.sequence == next == 1 && sequence == 0)
      || (e.payload.DeltaPayload? && e.sequence == next == sequence + 1 >= 2)
      || (e.payload.HeartbeatPayload? && next == sequence)
    ensures var q' := Offer(q, e, marker, size); HasMarker(q') || Smooth(next, e.serverInstanceId, f, q')
  {
    hide HasMarker, FollowAll, DriftFree;
    if |q| < size {
      Stranding.MarkerAppended(q, e);
      FollowAppend(f, q, e);
    } else {
      Stranding.MarkerAppended(if q == [] then [] else q[1..], marker);
    }
  }

  lemma SiteParts(s: Site)
    requires SiteInv(s)
    ensures var w, m := s.world, s.world.manager;
            && Inv(w) && Restarts.OwnMessages(w) && m.instanceId in s.used && LinksFit(w)
            && m.queueSize >= 1 && m.sequence == |w.log| == |w.sent| && m.queues.Keys <= s.flows.Keys
            && w.links.Keys == m.queues.Keys
  {
    hide LinkOk, ConnectionOk, Tracks, Restarts.OwnMessages, FlowOk, CourseOk;
  }

  /** What a quiet step leaves of every browser's standing: the log only grows. */
  lemma FlowsCarryOver(w: World, w': World, used: set<string>, f: Flow)
    requires FlowOk(w, used, f) && w'.manager.instanceId == w.manager.instanceId && |w.log| <= |w'.log|
    ensures FlowOk(w', used, f)
  {
  }

  lemma BroadcastKeepsCourses(s: Site, w': World, e: Envelope)
    requires SiteInv(s) && w'.manager.instanceId == s.world.manager.instanceId == e.serverInstanceId
    requires w'.manager.queueSize == s.world.manager.queueSize
    requires w'.manager.queues == map c | c in s.world.manager.queues ::
               Offer(s.world.manager.queues[c], e, w'.manager.SlowClientMarker(), w'.manager.queueSize)
    requires
      || (e.payload.SnapshotPayload? && e.sequence == w'.manager.sequence == 1 && s.world.manager.sequence == 0)
      || (e.payload.DeltaPayload? && e.sequence == w'.manager.sequence == s.world.manager.sequence + 1 >= 2)
      || (e.payload.HeartbeatPayload? && w'.manager.sequence == s.world.manager.sequence)
    ensures forall c :: c in w'.manager.queues && c in s.flows ==> CourseOk(w', c, s.flows[c])
  {
    hide Inv, Restarts.OwnMessages, FlowOk, Smooth, HasMarker, Offer;
    SiteParts(s);
    forall c | c in w'.manager.queues && c in s.flows ensures CourseOk(w', c, s.flows[c]) {
      assert CourseOk(s.world, c, s.flows[c]);
      if s.flows[c].open {
        OfferKeepsSmooth(s.world.manager.sequence, w'.manager.sequence, s.flows[c], s.world.manager.queues[c], e,
                         w'.manager.SlowClientMarker(), w'.manager.queueSize);
      }
    }
  }

  lemma QuietKeepsRest(s: Site, step: Step)
    requires SiteInv(s) && (step.Sample? || step.Beat? || step.Leave?)
    ensures var w' := Next(s.world, step);
            && Inv(w') && Restarts.OwnMessages(w') && w'.manager.instanceId == s.world.manager.instanceId
            && w'.manager.queues.Keys <= s.world.manager.queues.Keys && |s.world.log| <= |w'.log|
            && (forall c :: c in s.flows ==> FlowOk(w', s.used, s.flows[c]))
  {
    hide Inv, Restarts.OwnMessages, Next, FlowOk, LinksFit, CourseOk;
    var w' := Next(s.world, step);
    SiteParts(s);
    NextKeepsInv(s.world, step);
    Restarts.NextOwn(s.world, step);
    Restarts.ClientsUnchanged(s.world, step);
    LogOnlyGrows(s.world, step);
    forall c | c in s.flows ensures FlowOk(w', s.used, s.flows[c]) {
      FlowsCarryOver(s.world, w', s.used, s.flows[c]);
    }
  }

  lemma LogOnlyGrows(w: World, step: Step)
    ensures w.log <= Next(w, step).log
    ensures !step.Sample? ==> Next(w, step).log == w.log
  {
    hide DeltaBetween, OfferLinks, Offer, Greeting, OfferAllLink, OfferAll, Receive;
  }

  lemma SampleKeepsSite(s: Site, x: Snapshot)
    requires SiteInv(s)
    ensures SiteInv(Happens(s, Sampled(x)))
  {
    hide Inv, Restarts.OwnMessages, FlowOk, CourseOk, DeltaBetween, Offer, OfferLinks, Push;
    var w, w' := s.world, Next(s.world, Sample(x));
    QuietKeepsRest(s, Sample(x));
    SiteParts(s);
    var e := MessageFor(w.manager, x);
    if e.Some? {
      Stranding.LatestMeansSequence(w);
      BroadcastKeepsCourses(s, w', e.value);
    } else {
      SameQueues(s, w');
    }
  }

  lemma SameQueues(s: Site, w': World)
    requires SiteInv(s) && w'.manager == s.world.manager
    ensures forall c :: c in w'.manager.queues && c in s.flows ==> CourseOk(w', c, s.flows[c])
  {
    hide Inv, Restarts.OwnMessages, FlowOk, HasMarker, Smooth;
    forall c | c in w'.manager.queues && c in s.flows ensures CourseOk(w', c, s.flows[c]) {
      assert CourseOk(s.world, c, s.flows[c]);
    }
  }

  lemma BeatKeepsSite(s: Site)
    requires SiteInv(s)
    ensures SiteInv(Happens(s, Beaten))
  {
    hide Inv, Restarts.OwnMessages, FlowOk, CourseOk, Offer, OfferLink;
    var m := s.world.manager;
    QuietKeepsRest(s, Beat);
    BroadcastKeepsCourses(s, Next(s.world, Beat), Envelope(m.sequence, m.instanceId, HeartbeatPayload));
  }

  /** One browser's change keeps the invariant if its connection stays on course. */
  lemma FlowKeepsSite(s: Site, s': Site, c: string)
    requires SiteInv(s) && Inv(s'.world) && Restarts.OwnMessages(s'.world) && s'.used == s.used
    requires s'.world.manager.instanceId == s.world.manager.instanceId && |s'.world.log| == |s.world.log|
    requires s'.world.manager.sequence == s.world.manager.sequence
    requires c in s'.flows && s'.flows == s.flows[c := s'.flows[c]] && FlowOk(s'.world, s.used, s'.flows[c])
    requires s'.world.manager.queues.Keys <= s.world.manager.queues.Keys + {c}
    requires forall d :: d in s'.world.manager.queues && d != c ==>
               d in s.world.manager.queues && s'.world.manager.queues[d] == s.world.manager.queues[d]
    requires c in s'.world.manager.queues ==> CourseOk(s'.world, c, s'.flows[c])
    ensures SiteInv(s')
  {
    hide Inv, Restarts.OwnMessages, FlowOk, HasMarker, Smooth;
    forall d | d in s'.flows ensures FlowOk(s'.world, s'.used, s'.flows[d]) {
      if d != c {
        FlowsCarryOver(s.world, s'.world, s.used, s.flows[d]);
      }
    }
    forall d | d in s'.world.manager.queues && d in s'.flows ensures CourseOk(s'.world, d, s'.flows[d]) {
      if d != c {
        assert CourseOk(s.world, d, s.flows[d]);
      }
    }
  }

  lemma StrangerOk(w: World, used: set<string>, b: bool)
    ensures FlowOk(w, used, STRANGER.(open := b))
  {
  }

  lemma KnownFlow(s: Site, c: string)
    requires SiteInv(s)
    ensures FlowOk(s.world, s.used, FlowOf(s, c))
  {
    hide Inv, Restarts.OwnMessages, CourseOk, FlowOk;
    StrangerOk(s.world, s.used, false);
  }

  lemma Reopened(w: World, used: set<string>, f: Flow, b: bool)
    requires FlowOk(w, used, f)
    ensures FlowOk(w, used, f.(open := b))
  {
  }

  lemma LeaveKeepsSite(s: Site, c: string)
    requires SiteInv(s)
    ensures SiteInv(Happens(s, Disconnects(c)))
  {
    hide Inv, Restarts.OwnMessages, CourseOk, FlowOk;
    QuietKeepsRest(s, Leave(c));
    KnownFlow(s, c);
    Reopened(s.world, s.used, FlowOf(s, c), false);
    FlowsCarryOver(s.world, Next(s.world, Leave(c)), s.used, FlowOf(s, c).(open := false));
    FlowKeepsSite(s, Happens(s, Disconnects(c)), c);
  }

  lemma RestartKeepsSite(s: Site, id: string)
    requires SiteInv(s)
    ensures SiteInv(Happens(s, Restarted(id)))
  {
    hide Inv, Restarts.OwnMessages, CourseOk;
    if id !in s.used {
      SiteParts(s);
      var m := s.world.manager;
      Restarts.EmptyWorldInv(Start(id, m.replaySize, m.queueSize, m.maxConnections));
    }
  }

  // ----------------------------------------------------------------------------
  // Connecting and receiving
  // ----------------------------------------------------------------------------

  /** A run of consecutive deltas after what the browser holds takes it to the last of them. */
  lemma {:induction false} NextsFollow(f: Flow, g: seq<Envelope>, from: int, id: string)
    requires f.open && f.instance == Some(id) && f.sequence == Some(from) && Restarts.AllFrom(g, id)
    requires forall i :: 0 <= i < |g| ==> g[i].payload.DeltaPayload? && g[i].sequence == from + 1 + i
    ensures DriftFree(f, g) && FollowAll(f, g) == f.(sequence := Some(from + |g|))
  {
    if g != [] {
      NextsFollow(f, g[..|g| - 1], from, id);
    }
  }

  lemma ResumptionSmooth(s: Site, f: Flow)
    requires SiteInv(s) && FlowOk(s.world, s.used, f) && f.open
    requires f.instance == Some(s.world.manager.instanceId) && f.sequence.Some?
    requires MessagesSince(s.world.manager.ring, f.sequence.value).Some?
    ensures var m := s.world.manager; Smooth(m.sequence, m.instanceId, f, Greeting(m, f.instance, f.sequence))
  {
    hide Inv, FlowOk, CourseOk, MessagesSince, FollowAll, DriftFree;
    var w, m, from := s.world, s.world.manager, f.sequence.value;
    var g := Greeting(m, f.instance, f.sequence);
    SiteParts(s);
    FlowSequence(w, s.used, f);
    ReplayedDeltas(w, from);
    Restarts.GreetingFromOwn(m, f.instance, f.sequence);
    NextsFollow(f, g, from, m.instanceId);
  }

  lemma FlowSequence(w: World, used: set<string>, f: Flow)
    requires FlowOk(w, used, f) && f.sequence.Some? && f.instance == Some(w.manager.instanceId)
    ensures 1 <= f.sequence.value <= |w.log|
  {
  }

  lemma ReplayedDeltas(w: World, from: int)
    requires Inv(w) && 1 <= from <= |w.log| && MessagesSince(w.manager.ring, from).Some?
    ensures var g := MessagesSince(w.manager.ring, from).value;
            && |g| == w.manager.sequence - from
            && forall i :: 0 <= i < |g| ==> g[i].payload.DeltaPayload? && g[i].sequence == from + 1 + i
  {
    hide DeltaBetween, Equivalent, LinksFit, ConnectionOk, MessagesSince, Tracks;
    ReplayExact(w.sent, w.manager.replaySize, from);
  }

  /** Unless it is warned at once, a connecting browser is greeted into step. */
  lemma GreetingSmooth(s: Site, f: Flow)
    requires SiteInv(s) && FlowOk(s.world, s.used, f) && f.open
    ensures var m, known := s.world.manager, f.instance.Some? && f.sequence.Some?;
            var g := Greeting(m, if known then f.instance else None, if known then f.sequence else None);
            HasMarker(g) || Smooth(m.sequence, m.instanceId, f, g)
  {
    hide Inv, FlowOk, CourseOk, MessagesSince, HasMarker, Restarts.OwnMessages;
    var w, m, known := s.world, s.world.manager, f.instance.Some? && f.sequence.Some?;
    SiteParts(s);
    Stranding.LatestMeansSequence(w);
    if known && f.instance == Some(m.instanceId) {
      if MessagesSince(m.ring, f.sequence.value).Some? {
        ResumptionSmooth(s, f);
      } else {
        var g := Greeting(m, f.instance, f.sequence);
        assert g[0].payload.ResyncPayload?;
        MarkerFirst(g);
      }
    } else if m.latest.Some? {
      SnapshotSmooth(m, f);
    }
  }

  lemma MarkerFirst(g: seq<Envelope>)
    requires g != [] && g[0].payload.ResyncPayload?
    ensures HasMarker(g)
  {
  }

  lemma SnapshotSmooth(m: ManagerState, f: Flow)
    requires f.open && m.latest.Some?
    ensures Smooth(m.sequence, m.instanceId, f,
                   [Envelope(m.sequence, m.instanceId, SnapshotPayload(m.latest.value))])
  {
    var e := Envelope(m.sequence, m.instanceId, SnapshotPayload(m.latest.value));
    FollowAppend(f, [], e);
    assert [] + [e] == [e];
  }

  lemma ConnectKeepsSite(s: Site, c: string)
    requires SiteInv(s)
    ensures SiteInv(Happens(s, Connects(c)))
  {
    hide Inv, Restarts.OwnMessages, FlowOk, SiteInv, Smooth, HasMarker, Greeting, OfferAll, OfferAllLink;
    var w, m := s.world, s.world.manager;
    if c in m.queues || m.AtCapacity() {
      return;
    }
    var s', f := Happens(s, Connects(c)), FlowOf(s, c).(open := true);
    var known := f.instance.Some? && f.sequence.Some?;
    var g := Greeting(m, if known then f.instance else None, if known then f.sequence else None);
    SiteParts(s);
    NextKeepsInv(w, Joining(c, f));
    Restarts.NextOwn(w, Joining(c, f));
    KnownFlow(s, c);
    Reopened(w, s.used, FlowOf(s, c), true);
    FlowsCarryOver(w, s'.world, s.used, f);
    GreetingSmooth(s, f);
    Stranding.UnmarkedFits(g, m.SlowClientMarker(), m.queueSize);
    FlowKeepsSite(s, s', c);
  }

  lemma FollowedOk(w: World, used: set<string>, f: Flow, e: Envelope)
    requires FlowOk(w, used, f) && w.manager.instanceId in used && e.serverInstanceId == w.manager.instanceId
    requires |w.log| == |w.sent| && Genuine(w.log, w.sent, e)
    ensures FlowOk(w, used, Follow(f, e))
  {
  }

  lemma HeadGenuine(w: World, c: string)
    requires Inv(w) && Restarts.OwnMessages(w) && c in w.manager.queues && w.manager.queues[c] != []
    ensures |w.log| == |w.sent| && Genuine(w.log, w.sent, w.manager.queues[c][0])
    ensures w.manager.queues[c][0].serverInstanceId == w.manager.instanceId
  {
    hide LinkOk, Tracks, WillCatchUp, DeltaBetween, RingOf, Genuine;
    assert ConnectionOk(w, c);
  }

  lemma DeliveryCourse(w: World, c: string, f: Flow)
    requires CanDeliver(w, c) && CourseOk(w, c, f)
    ensures var w' := Next(w, Deliver(c));
            c in w'.manager.queues && CourseOk(w', c, Follow(f, w.manager.queues[c][0]))
  {
    hide HasMarker, FollowAll, DriftFree, Receive;
    var q := w.manager.queues[c];
    if f.open && HasMarker(q) {
      Stranding.MarkerMoves([], q);
      if !q[0].payload.ResyncPayload? {
        NoMarker(q[0]);
      }
    } else if f.open {
      FollowHead(f, q);
    }
  }

  lemma NoMarker(e: Envelope)
    requires !e.payload.ResyncPayload?
    ensures !HasMarker([] + [e])
  {
  }

  lemma DeliverKeepsSite(s: Site, c: string)
    requires SiteInv(s)
    ensures SiteInv(Happens(s, Delivered(c)))
  {
    hide Inv, Restarts.OwnMessages, FlowOk, SiteInv, CourseOk, Receive, Follow, Genuine;
    var w := s.world;
    if !CanDeliver(w, c) {
      return;
    }
    var s', e := Happens(s, Delivered(c)), w.manager.queues[c][0];
    SiteParts(s);
    NextKeepsInv(w, Deliver(c));
    Restarts.NextOwn(w, Deliver(c));
    KnownFlow(s, c);
    HeadGenuine(w, c);
    FollowedOk(w, s.used, FlowOf(s, c), e);
    FlowsCarryOver(w, s'.world, s.used, Follow(FlowOf(s, c), e));
    CourseOf(s, c);
    DeliveryCourse(w, c, FlowOf(s, c));
    FlowKeepsSite(s, s', c);
  }

  lemma CourseOf(s: Site, c: string)
    requires SiteInv(s) && c in s.world.manager.queues
    ensures c in s.flows && CourseOk(s.world, c, FlowOf(s, c))
  {
    hide Inv, Restarts.OwnMessages, FlowOk, CourseOk;
  }

  lemma EventKeepsSite(s: Site, ev: Event)
    requires SiteInv(s)
    ensures SiteInv(Happens(s, ev))
  {
    hide SiteInv, Happens;
    match ev
    case Sampled(x) => SampleKeepsSite(s, x);
    case Beaten => BeatKeepsSite(s);
    case Connects(c) => ConnectKeepsSite(s, c);
    case Delivered(c) => DeliverKeepsSite(s, c);
    case Disconnects(c) => LeaveKeepsSite(s, c);
    case Restarted(id) => RestartKeepsSite(s, id);
  }

  // ----------------------------------------------------------------------------
  // Runs and what browsers show in them
  // ----------------------------------------------------------------------------

  function SiteAfter(m: ManagerState, events: seq<Event>, n: nat): Site
    requires n <= |events|
  {
    if n == 0 then Site(StartWorld(m), map[], {m.instanceId})
    else Happens(SiteAfter(m, events, n - 1), events[n - 1])
  }

  /** A manager before its first sample, with room for messages. */
  predicate Startable(m: ManagerState)
  {
    m == Start(m.instanceId, m.replaySize, m.queueSize, m.maxConnections) && m.queueSize >= 1
  }

  lemma {:induction false} RunKeepsSite(m: ManagerState, events: seq<Event>, n: nat)
    requires Startable(m) && n <= |events|
    ensures SiteInv(SiteAfter(m, events, n))
  {
    hide SiteInv, Happens;
    if n == 0 {
      FreshSite(m);
    } else {
      RunKeepsSite(m, events, n - 1);
      EventKeepsSite(SiteAfter(m, events, n - 1), events[n - 1]);
    }
  }

  lemma FreshSite(m: ManagerState)
    requires Startable(m)
    ensures SiteInv(Site(StartWorld(m), map[], {m.instanceId}))
  {
    hide Inv, Restarts.OwnMessages;
    Restarts.EmptyWorldInv(m);
  }

  predicate Receives(s: Site, ev: Event, c: string)
  {
    ev == Delivered(c) && CanDeliver(s.world, c)
  }

  /** What the client shows after `n` events; `fill` says what its cache held at each moment,
      which matters where it had no sequence. */
  function ViewAfter(m: ManagerState, events: seq<Event>, n: nat, c: string, fill: nat -> Snapshot): Option<Snapshot>
    requires n <= |events|
  {
    if n == 0 then None
    else
      var s, view := SiteAfter(m, events, n - 1), ViewAfter(m, events, n - 1, c, fill);
      if Receives(s, events[n - 1], c)
      then Shown(FlowOf(s, c), view, s.world.manager.queues[c][0], fill(n - 1))
      else view
  }

  /** The client believes to be in step with the running server. */
  predicate FollowsServer(w: World, f: Flow)
  {
    f.sequence.Some? && f.instance in {None, Some(w.manager.instanceId)}
  }

  predicate AgreesWith(w: World, f: Flow, view: Option<Snapshot>)
  {
    FollowsServer(w, f) ==>
      && 1 <= f.sequence.value <= |w.log|
      && view.Some? && Equivalent(view.value, w.log[f.sequence.value - 1])
  }

  predicate InStep(s: Site, c: string)
  {
    FollowsServer(s.world, FlowOf(s, c))
  }

  predicate Agrees(s: Site, c: string, view: Option<Snapshot>)
  {
    AgreesWith(s.world, FlowOf(s, c), view)
  }

  ghost predicate AgreesAt(m: ManagerState, events: seq<Event>, n: nat, c: string, fill: nat -> Snapshot)
    requires n <= |events|
  {
    Agrees(SiteAfter(m, events, n), c, ViewAfter(m, events, n, c, fill))
  }

  /** At event `k` the client is delivered a delta while it holds no sequence. */
  predicate DriftsAt(m: ManagerState, events: seq<Event>, k: nat, c: string)
    requires k < |events|
  {
    var s := SiteAfter(m, events, k);
    Receives(s, events[k], c) && Drifts(FlowOf(s, c), s.world.manager.queues[c][0])
  }

  lemma NextSite(m: ManagerState, events: seq<Event>, n: nat)
    requires n < |events|
    ensures SiteAfter(m, events, n + 1) == Happens(SiteAfter(m, events, n), events[n])
  {
    hide Happens;
  }

  lemma NextView(m: ManagerState, events: seq<Event>, n: nat, c: string, fill: nat -> Snapshot)
    requires n < |events|
    ensures var s, view := SiteAfter(m, events, n), ViewAfter(m, events, n, c, fill);
            ViewAfter(m, events, n + 1, c, fill)
            == if Receives(s, events[n], c) then Shown(FlowOf(s, c), view, s.world.manager.queues[c][0], fill(n))
               else view
  {
    hide Happens, Shown;
  }

  // ----------------------------------------------------------------------------
  // A client that is not adrift agrees
  // ----------------------------------------------------------------------------

  /** What other events leave of a browser: its sequence and instance; the log only grows, or
      a restart makes the instance one that no browser holds. */
  lemma FlowElsewhere(s: Site, ev: Event, c: string)
    requires SiteInv(s) && !Receives(s, ev, c)
    ensures var s' := Happens(s, ev);
            && FlowOf(s', c) == FlowOf(s, c).(open := FlowOf(s', c).open)
            && (s'.world.manager.instanceId == s.world.manager.instanceId ==> s.world.log <= s'.world.log)
            && (s'.world.manager.instanceId != s.world.manager.instanceId ==>
                  FlowOf(s, c).instance != Some(s'.world.manager.instanceId))
  {
    hide Inv, Restarts.OwnMessages, CourseOk, Next, Follow;
    match ev
    case Sampled(x) => InstanceKept(s, Sample(x));
    case Beaten => InstanceKept(s, Beat);
    case Connects(d) => InstanceKept(s, Joining(d, FlowOf(s, d)));
    case Delivered(d) => InstanceKept(s, Deliver(d));
    case Disconnects(d) => InstanceKept(s, Leave(d));
    case Restarted(id) => KnownFlow(s, c);
  }

  lemma InstanceKept(s: Site, step: Step)
    requires SiteInv(s)
    ensures Next(s.world, step).manager.instanceId == s.world.manager.instanceId
    ensures s.world.log <= Next(s.world, step).log
  {
    hide SiteInv, Next, LinksFit, Inv, Restarts.OwnMessages;
    SiteParts(s);
    Restarts.NextOwn(s.world, step);
    LogOnlyGrows(s.world, step);
  }

  /** Reading a genuine message, a client agrees afterwards unless that leaves it adrift. */
  lemma ReadingAgrees(s: Site, c: string, view: Option<Snapshot>, loaded: Snapshot)
    requires SiteInv(s) && CanDeliver(s.world, c) && (!FlowOf(s, c).adrift ==> Agrees(s, c, view))
    ensures var s' := Happens(s, Delivered(c));
            !FlowOf(s', c).adrift ==> Agrees(s', c, Shown(FlowOf(s, c), view, s.world.manager.queues[c][0], loaded))
  {
    hide Inv, Restarts.OwnMessages, SiteInv, Receive, FlowOk, LinksFit, Follow, Shown, AgreesWith, Next, Genuine;
    var w, e, f := s.world, s.world.manager.queues[c][0], FlowOf(s, c);
    SiteParts(s);
    KnownFlow(s, c);
    HeadGenuine(w, c);
    LogOnlyGrows(w, Deliver(c));
    InstanceKept(s, Deliver(c));
    AnchoredKnows(w, s.used, f);
    MessageAgrees(w, f, e, view, loaded);
    SameLogAgrees(w, Next(w, Deliver(c)), Follow(f, e), Shown(f, view, e, loaded));
  }

  lemma SameLogAgrees(w: World, w': World, f: Flow, view: Option<Snapshot>)
    requires w'.log == w.log && w'.manager.instanceId == w.manager.instanceId
    ensures AgreesWith(w', f, view) <==> AgreesWith(w, f, view)
  {
    hide Equivalent;
  }

  lemma MessageAgrees(w: World, f: Flow, e: Envelope, view: Option<Snapshot>, loaded: Snapshot)
    requires Inv(w) && |w.log| == |w.sent| && Genuine(w.log, w.sent, e) && e.serverInstanceId == w.manager.instanceId
    requires f.sequence.Some? && !f.adrift ==> f.instance.Some?
    requires !f.adrift ==> AgreesWith(w, f, view)
    ensures !Follow(f, e).adrift ==> AgreesWith(w, Follow(f, e), Shown(f, view, e, loaded))
  {
    hide Inv, Apply, Equivalent;
    match e.payload
    case SnapshotPayload(s) => SnapshotEquivalent(s);
    case DeltaPayload(d) =>
      if f.open && !f.adrift && f.sequence.Some? && f.instance == Some(w.manager.instanceId)
         && e.sequence == f.sequence.value + 1 {
        SentDelta(w, e);
        DeltaApplies(view.value, w.log[e.sequence - 2], w.log[e.sequence - 1]);
      }
    case _ =>
  }

  lemma AnchoredKnows(w: World, used: set<string>, f: Flow)
    requires FlowOk(w, used, f)
    ensures f.sequence.Some? && !f.adrift ==> f.instance.Some?
  {
  }

  lemma SentDelta(w: World, e: Envelope)
    requires Inv(w) && |w.log| == |w.sent| && Genuine(w.log, w.sent, e) && e.payload.DeltaPayload?
    ensures 2 <= e.sequence <= |w.log|
    ensures DeltaBetween(w.log[e.sequence - 2], w.log[e.sequence - 1]) == Some(e.payload.delta)
  {
    hide DeltaBetween, LinksFit, ConnectionOk, Tracks, Equivalent, RingOf;
  }

  /** A client that is not adrift agrees, whatever its cache held. */
  lemma {:induction false} AnchoredAgrees(m: ManagerState, events: seq<Event>, n: nat, c: string, fill: nat -> Snapshot)
    requires Startable(m) && n <= |events|
    ensures !FlowOf(SiteAfter(m, events, n), c).adrift ==> AgreesAt(m, events, n, c, fill)
  {
    hide SiteInv, Happens, Shown, Agrees;
    if n == 0 {
      NobodyInStep(m, events, c, fill);
    } else {
      AnchoredAgrees(m, events, n - 1, c, fill);
      RunKeepsSite(m, events, n - 1);
      NextView(m, events, n - 1, c, fill);
      var s, ev, view := SiteAfter(m, events, n - 1), events[n - 1], ViewAfter(m, events, n - 1, c, fill);
      if Receives(s, ev, c) {
        ReadingAgrees(s, c, view, fill(n - 1));
      } else {
        ElsewhereAgrees(s, ev, c, view);
      }
    }
  }

  lemma NobodyInStep(m: ManagerState, events: seq<Event>, c: string, fill: nat -> Snapshot)
    ensures AgreesAt(m, events, 0, c, fill) && FlowOf(SiteAfter(m, events, 0), c) == STRANGER
  {
  }

  lemma ElsewhereAgrees(s: Site, ev: Event, c: string, view: Option<Snapshot>)
    requires SiteInv(s) && !Receives(s, ev, c) && (!FlowOf(s, c).adrift ==> Agrees(s, c, view))
    ensures !FlowOf(Happens(s, ev), c).adrift ==> Agrees(Happens(s, ev), c, view)
  {
    hide SiteInv, Happens, Equivalent, FlowOk;
    FlowElsewhere(s, ev, c);
    KnownFlow(s, c);
    AnchoredKnows(s.world, s.used, FlowOf(s, c));
  }

  // ----------------------------------------------------------------------------
  // A client that is adrift can show anything
  // ----------------------------------------------------------------------------

  function LongestId(agents: seq<Agent>): nat
  {
    if agents == [] then 0
    else
      var init, last := LongestId(agents[..|agents| - 1]), |agents[|agents| - 1].id|;
      if last > init then last else init
  }

  function LongestSampled(events: seq<Event>): nat
  {
    if events == [] then 0
    else
      var init, last := LongestSampled(events[..|events| - 1]), events[|events| - 1];
      if last.Sampled? && LongestId(last.s.agents) > init then LongestId(last.s.agents) else init
  }

  /** A name no sampled agent has. */
  function StrayId(events: seq<Event>): string
  {
    seq(LongestSampled(events) + 1, _ => 'x')
  }

  predicate Lacks(s: Snapshot, id: string)
  {
    id !in ById(s.agents)
  }

  lemma {:induction false} IdsAreShort(agents: seq<Agent>, id: string)
    requires id in ById(agents)
    ensures |id| <= LongestId(agents)
  {
    if agents[|agents| - 1].id != id {
      IdsAreShort(agents[..|agents| - 1], id);
    }
  }

  lemma {:induction false} SampledAreShort(events: seq<Event>, k: nat)
    requires k < |events| && events[k].Sampled?
    ensures LongestId(events[k].s.agents) <= LongestSampled(events)
  {
    if k < |events| - 1 {
      SampledAreShort(events[..|events| - 1], k);
    }
  }

  lemma SampleLacks(events: seq<Event>, k: nat)
    requires k < |events| && events[k].Sampled?
    ensures Lacks(events[k].s, StrayId(events))
  {
    SampledAreShort(events, k);
    if !Lacks(events[k].s, StrayId(events)) {
      IdsAreShort(events[k].s.agents, StrayId(events));
    }
  }

  lemma {:induction false} LogLacks(m: ManagerState, events: seq<Event>, n: nat, i: nat)
    requires n <= |events| && i < |SiteAfter(m, events, n).world.log|
    ensures Lacks(SiteAfter(m, events, n).world.log[i], StrayId(events))
  {
    hide Happens, Lacks, StrayId;
    if n > 0 {
      var s := SiteAfter(m, events, n - 1);
      LogAfter(s, events[n - 1]);
      if i < |s.world.log| {
        LogLacks(m, events, n - 1, i);
      } else {
        SampleLacks(events, n - 1);
      }
    }
  }

  /** An event adds at most the snapshot it samples, or clears the log. */
  lemma LogAfter(s: Site, ev: Event)
    ensures var log, log' := s.world.log, Happens(s, ev).world.log;
            || log' == log || log' == []
            || (ev.Sampled? && log' == log + [ev.s])
  {
    hide Greeting, OfferAll, OfferAllLink, Receive, DeltaBetween, OfferLinks, Offer, Follow;
  }

  lemma DeltaSilent(a: Snapshot, b: Snapshot, id: string)
    requires DeltaBetween(a, b).Some? && Lacks(a, id) && Lacks(b, id)
    ensures var d := DeltaBetween(a, b).value.changes.agents; d.Some? ==> !Mentions(d.value, id)
  {
    var d := Diff(a.agents, b.agents, AgentChanged);
    DiffIsDiff(a.agents, b.agents, AgentChanged);
    UpsertsById(d.upsert, ById(a.agents), ById(b.agents), AgentChanged);
  }

  lemma StrayStays(view: Snapshot, d: RealtimeDelta, id: string)
    requires id in ById(view.agents) && (d.changes.agents.Some? ==> !Mentions(d.changes.agents.value, id))
    ensures id in ById(Apply(view, d).agents)
  {
    if d.changes.agents.Some? {
      ApplyById(view.agents, d.changes.agents.value);
    }
  }

  const STRAY := AgentBody(AgentDefinition(None, "", None, None, false, None, None),
                           AgentRuntime("", "", None, None, None, None, None, None),
                           AgentCapabilities(None, None, None, None), None, None)

  /** A cache that holds one agent of that name. */
  function StrayCache(id: string): Snapshot
  {
    Snapshot("", 0, Gateway("", false, 0, "", None, None, None, None, None, None),
             RuntimeOverview("", 0, 0, 0, None, map[]), [Entity(id, STRAY)], map[], map[], [], [])
  }

  predicate ShowsStray(view: Option<Snapshot>, id: string)
  {
    view.Some? && id in ById(view.value.agents)
  }

  lemma StrayLoaded(id: string)
    ensures ShowsStray(Some(StrayCache(id)), id)
  {
    var agents := StrayCache(id).agents;
    assert agents[..0] == [];
  }

  lemma GenuineSilent(m: ManagerState, events: seq<Event>, n: nat, e: Envelope)
    requires Startable(m) && n <= |events| && e.payload.DeltaPayload?
    requires var w := SiteAfter(m, events, n).world; |w.log| == |w.sent| && Genuine(w.log, w.sent, e)
    ensures var d := e.payload.delta.changes.agents; d.Some? ==> !Mentions(d.value, StrayId(events))
  {
    hide SiteInv, SiteAfter, DeltaBetween, Lacks, StrayId, Inv, Genuine;
    RunKeepsSite(m, events, n);
    SiteParts(SiteAfter(m, events, n));
    var w := SiteAfter(m, events, n).world;
    SentDelta(w, e);
    LogLacks(m, events, n, e.sequence - 2);
    LogLacks(m, events, n, e.sequence - 1);
    DeltaSilent(w.log[e.sequence - 2], w.log[e.sequence - 1], StrayId(events));
  }

  /** If the cache held the stray, a client that is adrift shows it. */
  lemma {:induction false} AdriftShowsStray(m: ManagerState, events: seq<Event>, n: nat, c: string)
    requires Startable(m) && n <= |events| && FlowOf(SiteAfter(m, events, n), c).adrift
    ensures var id := StrayId(events); ShowsStray(ViewAfter(m, events, n, c, _ => StrayCache(id)), id)
  {
    hide SiteInv, Happens, ShowsStray, StrayCache, StrayId, SiteAfter, Shown;
    if n == 0 {
      FreshAnchored(m, events, c);
    } else {
      var id := StrayId(events);
      var fill: nat -> Snapshot := _ => StrayCache(id);
      var s, ev := SiteAfter(m, events, n - 1), events[n - 1];
      RunKeepsSite(m, events, n - 1);
      NextSite(m, events, n - 1);
      NextView(m, events, n - 1, c, fill);
      if FlowOf(s, c).adrift {
        AdriftShowsStray(m, events, n - 1, c);
      }
      if Receives(s, ev, c) {
        ReadingShowsStray(m, events, n - 1, c, ViewAfter(m, events, n - 1, c, fill));
      } else {
        FlowElsewhere(s, ev, c);
      }
    }
  }

  lemma FreshAnchored(m: ManagerState, events: seq<Event>, c: string)
    ensures FlowOf(SiteAfter(m, events, 0), c) == STRANGER
  {
  }

  lemma ReadingShowsStray(m: ManagerState, events: seq<Event>, n: nat, c: string, view: Option<Snapshot>)
    requires Startable(m) && n < |events| && Receives(SiteAfter(m, events, n), events[n], c)
    requires FlowOf(SiteAfter(m, events, n), c).adrift ==> ShowsStray(view, StrayId(events))
    ensures var s, id := SiteAfter(m, events, n), StrayId(events);
            FlowOf(Happens(s, events[n]), c).adrift ==>
              ShowsStray(Shown(FlowOf(s, c), view, s.world.manager.queues[c][0], StrayCache(id)), id)
  {
    hide SiteInv, StrayCache, StrayId, SiteAfter, Apply, Inv, Restarts.OwnMessages, Genuine, FlowOk, Next;
    var s, id := SiteAfter(m, events, n), StrayId(events);
    var e := s.world.manager.queues[c][0];
    RunKeepsSite(m, events, n);
    SiteParts(s);
    HeadGenuine(s.world, c);
    if e.payload.DeltaPayload? {
      GenuineSilent(m, events, n, e);
      StrayLoaded(id);
      StrayStays(StrayCache(id), e.payload.delta, id);
      if ShowsStray(view, id) {
        StrayStays(view.value, e.payload.delta, id);
      }
    }
  }

  lemma StrayDisagrees(view: Snapshot, s: Snapshot, id: string)
    requires id in ById(view.agents) && Lacks(s, id)
    ensures !Equivalent(view, s)
  {
    assert id in CoreOf(view).agents && id !in CoreOf(s).agents;
  }

  // ----------------------------------------------------------------------------
  // Guarantees
  // ----------------------------------------------------------------------------

  /** At every moment of every run: the client agrees with the server whatever its cache held
      exactly when it is not adrift in the running server's sequence. */
  lemma AgreesIff(m: ManagerState, events: seq<Event>, n: nat, c: string)
    requires Startable(m) && n <= |events|
    ensures var s := SiteAfter(m, events, n);
            (forall fill :: AgreesAt(m, events, n, c, fill)) <==> !(FlowOf(s, c).adrift && InStep(s, c))
  {
    hide SiteInv, Happens, StrayCache, StrayId, SiteAfter, ViewAfter, Lacks, Equivalent;
    var s, id := SiteAfter(m, events, n), StrayId(events);
    if FlowOf(s, c).adrift && InStep(s, c) {
      var fill: nat -> Snapshot := _ => StrayCache(id);
      AdriftShowsStray(m, events, n, c);
      var view := ViewAfter(m, events, n, c, fill);
      if AgreesAt(m, events, n, c, fill) {
        var i := FlowOf(s, c).sequence.value - 1;
        LogLacks(m, events, n, i);
        StrayDisagrees(view.value, s.world.log[i], id);
      }
    } else {
      forall fill: nat -> Snapshot ensures AgreesAt(m, events, n, c, fill) {
        AnchoredAgrees(m, events, n, c, fill);
      }
    }
  }

  lemma {:induction false} NeverDriftsNeverAdrift(m: ManagerState, events: seq<Event>, n: nat, c: string)
    requires Startable(m) && n <= |events|
    requires forall k :: 0 <= k < n ==> !DriftsAt(m, events, k, c)
    ensures !FlowOf(SiteAfter(m, events, n), c).adrift
  {
    hide SiteInv, SiteAfter, Happens;
    if n == 0 {
      FreshAnchored(m, events, c);
    } else {
      var s := SiteAfter(m, events, n - 1);
      NeverDriftsNeverAdrift(m, events, n - 1, c);
      RunKeepsSite(m, events, n - 1);
      NextSite(m, events, n - 1);
      if Receives(s, events[n - 1], c) {
        assert !DriftsAt(m, events, n - 1, c);
        AnchoredReading(s, c);
      } else {
        FlowElsewhere(s, events[n - 1], c);
      }
    }
  }

  lemma AnchoredReading(s: Site, c: string)
    requires CanDeliver(s.world, c) && !FlowOf(s, c).adrift && !Drifts(FlowOf(s, c), s.world.manager.queues[c][0])
    ensures !FlowOf(Happens(s, Delivered(c)), c).adrift
  {
    hide Next;
  }

  lemma DriftLeavesAdrift(m: ManagerState, events: seq<Event>, k: nat, c: string)
    requires Startable(m) && k < |events| && DriftsAt(m, events, k, c)
    ensures var s := SiteAfter(m, events, k + 1); FlowOf(s, c).adrift && InStep(s, c)
  {
    hide SiteInv, SiteAfter, Inv, Restarts.OwnMessages, Genuine, Next, LinksFit;
    var s := SiteAfter(m, events, k);
    RunKeepsSite(m, events, k);
    SiteParts(s);
    HeadGenuine(s.world, c);
    InstanceKept(s, Deliver(c));
    NextSite(m, events, k);
  }

  /** Over every run: the client agrees with the server at every moment, whatever its cache
      held, exactly when it was never delivered a delta while it held no sequence. */
  lemma NeverDivergesIff(m: ManagerState, events: seq<Event>, n: nat, c: string)
    requires Startable(m) && n <= |events|
    ensures (forall k, fill :: 0 <= k <= n ==> AgreesAt(m, events, k, c, fill))
      <==> (forall k :: 0 <= k < n ==> !DriftsAt(m, events, k, c))
  {
    hide SiteInv, SiteAfter, Happens, Drifts, Receives, InStep;
    if forall k :: 0 <= k < n ==> !DriftsAt(m, events, k, c) {
      forall k, fill | 0 <= k <= n ensures AgreesAt(m, events, k, c, fill) {
        NeverDriftsNeverAdrift(m, events, k, c);
        AgreesIff(m, events, k, c);
      }
    } else {
      var k :| 0 <= k < n && DriftsAt(m, events, k, c);
      DriftLeavesAdrift(m, events, k, c);
      AgreesIff(m, events, k + 1, c);
    }
  }

  /** A client drifts only past a marker: one is already queued behind the delta, so that on
      this connection the client will be told. Queues of one message never let it drift. */
  lemma DriftIsWarned(m: ManagerState, events: seq<Event>, k: nat, c: string)
    requires Startable(m) && k < |events| && DriftsAt(m, events, k, c)
    ensures var q := SiteAfter(m, events, k).world.manager.queues[c];
            HasMarker(q[1..]) && |q| >= 2 && m.queueSize >= 2
  {
    hide SiteInv, SiteAfter, Inv, Restarts.OwnMessages, FlowOk;
    var s := SiteAfter(m, events, k);
    var q := s.world.manager.queues[c];
    RunKeepsSite(m, events, k);
    CourseOf(s, c);
    FollowHead(FlowOf(s, c), q);
    Stranding.MarkerMoves([], q);
    NoMarker(q[0]);
    QueueFits(s, c);
    SizesKept(m, events, k);
  }

  lemma QueueFits(s: Site, c: string)
    requires SiteInv(s) && c in s.world.manager.queues
    ensures |s.world.manager.queues[c]| <= s.world.manager.queueSize
  {
    hide Restarts.OwnMessages, FlowOk, CourseOk, ConnectionOk, ManagerOk, Tracks;
  }

  lemma {:induction false} SizesKept(m: ManagerState, events: seq<Event>, n: nat)
    requires n <= |events|
    ensures SiteAfter(m, events, n).world.manager.queueSize == m.queueSize
  {
    hide Happens;
    if n > 0 {
      SizesKept(m, events, n - 1);
      EventKeepsSize(SiteAfter(m, events, n - 1), events[n - 1]);
    }
  }

  lemma EventKeepsSize(s: Site, ev: Event)
    ensures Happens(s, ev).world.manager.queueSize == s.world.manager.queueSize
  {
    hide Next, Follow;
    match ev
    case Sampled(x) => StepKeepsSize(s.world, Sample(x));
    case Beaten => StepKeepsSize(s.world, Beat);
    case Connects(c) => StepKeepsSize(s.world, Joining(c, FlowOf(s, c)));
    case Delivered(c) => StepKeepsSize(s.world, Deliver(c));
    case Disconnects(c) => StepKeepsSize(s.world, Leave(c));
    case Restarted(_) =>
  }

  lemma StepKeepsSize(w: World, step: Step)
    ensures Next(w, step).manager.queueSize == w.manager.queueSize
  {
    hide DeltaBetween, OfferLinks, Offer, Greeting, OfferAll, OfferAllLink, Receive;
  }

  /** Over every run: a connected client that has not closed and whose queue is drained is
      level with the running server, and shows its newest sample whatever its cache held
      exactly when it is not adrift. */
  lemma OpenDrainedIff(m: ManagerState, events: seq<Event>, n: nat, c: string)
    requires Startable(m) && n <= |events|
    requires var s := SiteAfter(m, events, n);
             && c in s.world.manager.queues && s.world.manager.queues[c] == [] && FlowOf(s, c).open
             && s.world.lastSample.Some?
    ensures var s := SiteAfter(m, events, n);
            && FlowOf(s, c).sequence == Some(s.world.manager.sequence)
            && FlowOf(s, c).instance == Some(s.world.manager.instanceId)
            && ((forall fill :: ShowsNewest(m, events, n, c, fill)) <==> !FlowOf(s, c).adrift)
  {
    hide SiteInv, SiteAfter, Happens, Inv, Restarts.OwnMessages, FlowOk, ViewAfter, Equivalent, Agrees;
    var s := SiteAfter(m, events, n);
    RunKeepsSite(m, events, n);
    CourseOf(s, c);
    EmptyQueue(s.world, c, FlowOf(s, c));
    NewestIsLogged(s);
    AgreesIff(m, events, n, c);
    forall fill ensures ShowsNewest(m, events, n, c, fill) <==> AgreesAt(m, events, n, c, fill) {
      NewestAgrees(s, c, ViewAfter(m, events, n, c, fill));
    }
  }

  ghost predicate ShowsNewest(m: ManagerState, events: seq<Event>, n: nat, c: string, fill: nat -> Snapshot)
    requires n <= |events| && SiteAfter(m, events, n).world.lastSample.Some?
  {
    var view := ViewAfter(m, events, n, c, fill);
    view.Some? && Equivalent(view.value, SiteAfter(m, events, n).world.lastSample.value)
  }

  lemma NewestAgrees(s: Site, c: string, view: Option<Snapshot>)
    requires InStep(s, c) && s.world.lastSample.Some?
    requires FlowOf(s, c).sequence.value == |s.world.log| >= 1
    requires Equivalent(s.world.log[|s.world.log| - 1], s.world.lastSample.value)
    ensures Agrees(s, c, view) <==> view.Some? && Equivalent(view.value, s.world.lastSample.value)
  {
    hide CoreOf;
  }

  lemma EmptyQueue(w: World, c: string, f: Flow)
    requires c in w.manager.queues && w.manager.queues[c] == [] && f.open && CourseOk(w, c, f)
    ensures w.manager.sequence > 0 ==>
              f.instance == Some(w.manager.instanceId) && f.sequence == Some(w.manager.sequence)
  {
  }

  lemma NewestIsLogged(s: Site)
    requires SiteInv(s) && s.world.lastSample.Some?
    ensures var w := s.world;
            && |w.log| == w.manager.sequence >= 1 && Equivalent(w.log[|w.log| - 1], w.lastSample.value)
  {
    hide LinksFit, ConnectionOk, Tracks, Transmitted, Restarts.OwnMessages, FlowOk, CourseOk;
  }
}
