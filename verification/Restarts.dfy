/** The protocol across restarts of the server: each start draws a fresh instance id, and
    clients keep what they hold, with the instance it came from, until they are told more. */
module Restarts {
  import opened Common
  import opened Delta
  import opened Replay
  import opened Manager
  import opened Backpressure
  import opened Synchronisation

  /** What a client keeps across connections and restarts. */
  datatype Held = Held(instance: Option<string>, sequence: int, view: Option<Snapshot>, suspect: bool)

  const NOTHING := Held(None, 0, None, false)

  /** The client's rule: snapshots are taken as they come, a delta only when it is the very
      next one of the same instance. */
  function Take(k: Held, e: Envelope): Held
  {
    match e.payload
    case SnapshotPayload(s) => Held(Some(e.serverInstanceId), e.sequence, Some(s), false)
    case DeltaPayload(d) =>
      if k.instance == Some(e.serverInstanceId) && k.view.Some? && e.sequence == k.sequence + 1
      then k.(sequence := e.sequence, view := Some(Apply(k.view.value, d)))
      else k
    case HeartbeatPayload => k
    case ResyncPayload(_) => k.(suspect := true)
  }

  /** The running server with its connections, what every client holds, and the instance ids
      drawn so far. */
  datatype Fleet = Fleet(world: World, held: map<string, Held>, used: set<string>)

  datatype Event =
    | Sampled(s: Snapshot)
    | Beaten
    | Reconnects(c: string)
    | Delivered(c: string)
    | Disconnects(c: string)
    | Restarted(instanceId: string)

  function HeldBy(f: Fleet, c: string): Held
  {
    if c in f.held then f.held[c] else NOTHING
  }

  /** A client asks to resume from exactly what it holds. */
  function Resumption(f: Fleet, c: string): Step
  {
    var k := HeldBy(f, c);
    Join(c, k.instance, if k.instance.Some? then Some(k.sequence) else None)
  }

  function StartFleet(m: ManagerState): Fleet
  {
    Fleet(StartWorld(m), map[], {m.instanceId})
  }

  function Happens(f: Fleet, ev: Event): Fleet
  {
    var w, m := f.world, f.world.manager;
    match ev
    case Sampled(s) => f.(world := Next(w, Sample(s)))
    case Beaten => f.(world := Next(w, Beat))
    case Reconnects(c) =>
      if c in m.queues || m.AtCapacity() then f
      else f.(world := Next(w, Resumption(f, c)), held := f.held[c := HeldBy(f, c).(suspect := false)])
    case Delivered(c) =>
      if c !in m.queues || m.queues[c] == [] || c !in w.links || w.links[c].queue == [] then f
      else f.(world := Next(w, Deliver(c)), held := f.held[c := Take(HeldBy(f, c), m.queues[c][0])])
    case Disconnects(c) => f.(world := Next(w, Leave(c)))
    case Restarted(id) =>
      if id in f.used then f
      else Fleet(StartWorld(Start(id, m.replaySize, m.queueSize, m.maxConnections)), f.held, f.used + {id})
  }

  // ----------------------------------------------------------------------------
  // Every message is the present instance's own
  // ----------------------------------------------------------------------------

  predicate AllFrom(ms: seq<Envelope>, instanceId: string)
  {
    forall i :: 0 <= i < |ms| ==> ms[i].serverInstanceId == instanceId
  }

  predicate OwnMessages(w: World)
  {
    && AllFrom(w.manager.ring, w.manager.instanceId)
    && (forall c :: c in w.manager.queues ==> AllFrom(w.manager.queues[c], w.manager.instanceId))
    && (forall c :: c in w.links ==> AllFrom(w.links[c].delivered, w.manager.instanceId))
  }

  lemma OfferFrom(q: Queue, e: Envelope, marker: Envelope, size: nat, id: string)
    requires AllFrom(q, id) && e.serverInstanceId == id && marker.serverInstanceId == id
    ensures AllFrom(Offer(q, e, marker, size), id)
  {
  }

  lemma {:induction false} OfferAllFrom(ms: seq<Envelope>, marker: Envelope, size: nat, id: string)
    requires AllFrom(ms, id) && marker.serverInstanceId == id
    ensures AllFrom(OfferAll([], ms, marker, size), id)
  {
    hide Offer;
    if ms != [] {
      var init := ms[..|ms| - 1];
      OfferAllFrom(init, marker, size, id);
      OfferFrom(OfferAll([], init, marker, size), ms[|ms| - 1], marker, size, id);
    }
  }

  lemma {:induction false} NewerFrom(ring: seq<Envelope>, fromSequence: int, id: string)
    requires AllFrom(ring, id)
    ensures AllFrom(NewerThan(ring, fromSequence), id)
  {
    if ring != [] {
      NewerFrom(ring[..|ring| - 1], fromSequence, id);
    }
  }

  lemma GreetingFromOwn(m: ManagerState, knownInstance: Option<string>, fromSequence: Option<int>)
    requires AllFrom(m.ring, m.instanceId)
    ensures AllFrom(Greeting(m, knownInstance, fromSequence), m.instanceId)
  {
    if fromSequence.Some? {
      NewerFrom(m.ring, fromSequence.value, m.instanceId);
    }
  }

  lemma {:induction false} OpeningDelivers(ms: seq<Envelope>, marker: Envelope, size: nat)
    ensures OfferAllLink(ms, marker, size).delivered == []
  {
    hide Offer, Lose;
    if ms != [] {
      OpeningDelivers(ms[..|ms| - 1], marker, size);
    }
  }

  lemma BroadcastOwn(w: World, w': World, e: Envelope)
    requires OwnMessages(w) && w'.manager.instanceId == w.manager.instanceId == e.serverInstanceId
    requires AllFrom(w'.manager.ring, w.manager.instanceId)
    requires w'.manager.queues == map c | c in w.manager.queues ::
               Offer(w.manager.queues[c], e, w'.manager.SlowClientMarker(), w'.manager.queueSize)
    requires w'.links == OfferLinks(w, w'.manager, e)
    ensures OwnMessages(w')
  {
    hide Offer, Lose;
    forall c | c in w'.manager.queues ensures AllFrom(w'.manager.queues[c], w'.manager.instanceId) {
      OfferFrom(w.manager.queues[c], e, w'.manager.SlowClientMarker(), w'.manager.queueSize, w.manager.instanceId);
    }
  }

  lemma JoinOwn(w: World, c: string, knownInstance: Option<string>, fromSequence: Option<int>)
    requires OwnMessages(w)
    ensures var w' := Next(w, Join(c, knownInstance, fromSequence));
            OwnMessages(w') && w'.manager.instanceId == w.manager.instanceId
  {
    hide Greeting, OfferAll, OfferAllLink, AllFrom;
    var m := w.manager;
    var g, marker := Greeting(m, knownInstance, fromSequence), m.SlowClientMarker();
    GreetingFromOwn(m, knownInstance, fromSequence);
    OfferAllFrom(g, marker, m.queueSize, m.instanceId);
    OpeningDelivers(g, marker, m.queueSize);
    NothingFrom(m.instanceId);
  }

  lemma NothingFrom(id: string)
    ensures AllFrom([], id)
  {
  }

  lemma SampleOwn(w: World, s: Snapshot)
    requires OwnMessages(w)
    ensures OwnMessages(Next(w, Sample(s))) && Next(w, Sample(s)).manager.instanceId == w.manager.instanceId
  {
    hide DeltaBetween, OfferLinks, Offer;
    var e := MessageFor(w.manager, s);
    if e.Some? {
      BroadcastOwn(w, Next(w, Sample(s)), e.value);
    }
  }

  lemma BeatOwn(w: World)
    requires OwnMessages(w)
    ensures OwnMessages(Next(w, Beat)) && Next(w, Beat).manager.instanceId == w.manager.instanceId
  {
    hide Offer, OfferLink;
    BroadcastOwn(w, Next(w, Beat), Envelope(w.manager.sequence, w.manager.instanceId, HeartbeatPayload));
  }

  lemma DeliverOwn(w: World, c: string)
    requires OwnMessages(w) && LinksFit(w)
    ensures OwnMessages(Next(w, Deliver(c))) && Next(w, Deliver(c)).manager.instanceId == w.manager.instanceId
  {
    hide Receive, LinkOk;
  }

  lemma LeaveOwn(w: World, c: string)
    requires OwnMessages(w)
    ensures OwnMessages(Next(w, Leave(c))) && Next(w, Leave(c)).manager.instanceId == w.manager.instanceId
  {
    hide AllFrom;
  }

  lemma NextOwn(w: World, step: Step)
    requires OwnMessages(w) && LinksFit(w)
    ensures OwnMessages(Next(w, step)) && Next(w, step).manager.instanceId == w.manager.instanceId
  {
    hide OwnMessages, Next, LinksFit;
    match step
    case Sample(s) => SampleOwn(w, s);
    case Beat => BeatOwn(w);
    case Join(c, knownInstance, fromSequence) => JoinOwn(w, c, knownInstance, fromSequence);
    case Deliver(c) => DeliverOwn(w, c);
    case Leave(c) => LeaveOwn(w, c);
  }

  // ----------------------------------------------------------------------------
  // The invariant
  // ----------------------------------------------------------------------------

  /** What a client holds of the present instance is what the protocol knows it to hold;
      for the protocol anyone else is a newcomer. */
  predicate Matches(h: Held, k: Client, instanceId: string)
  {
    if h.instance == Some(instanceId) then h.sequence == k.sequence && h.view == k.view
    else k.sequence == 0 && k.view.None?
  }

  ghost predicate FleetInv(f: Fleet)
  {
    var w, id := f.world, f.world.manager.instanceId;
    && Inv(w) && OwnMessages(w) && id in f.used && w.clients.Keys <= f.held.Keys
    && (forall c :: c in f.held ==>
          && Matches(f.held[c], ClientOf(w, c), id)
          && (f.held[c].instance.Some? ==> f.held[c].instance.value in f.used))
    && (forall c :: c in w.manager.queues ==> c in f.held && f.held[c].suspect == ClientOf(w, c).suspect)
  }

  /** Reading a message of the present instance, the client and the protocol stay in step. */
  lemma TakeMatches(h: Held, k: Client, e: Envelope, instanceId: string)
    requires Matches(h, k, instanceId) && e.serverInstanceId == instanceId
    ensures Matches(Take(h, e), Receive(k, e), instanceId)
    ensures h.suspect == k.suspect ==> Take(h, e).suspect == Receive(k, e).suspect
    ensures Take(h, e).instance == h.instance || Take(h, e).instance == Some(instanceId)
  {
    hide Apply;
  }

  lemma ClientsUnchanged(w: World, step: Step)
    requires step.Sample? || step.Beat? || step.Leave?
    ensures Next(w, step).clients == w.clients
    ensures Next(w, step).manager.queues.Keys <= w.manager.queues.Keys
  {
    hide DeltaBetween, OfferLinks, Offer;
  }

  lemma LinksOf(w: World)
    requires Inv(w)
    ensures LinksFit(w) && w.manager.queueSize >= 1
  {
  }

  lemma QuietEventKeepsInv(f: Fleet, step: Step)
    requires FleetInv(f) && (step.Sample? || step.Beat? || step.Leave?)
    ensures FleetInv(f.(world := Next(f.world, step)))
  {
    hide Inv, OwnMessages, Next, Matches, LinksFit;
    NextKeepsInv(f.world, step);
    LinksOf(f.world);
    NextOwn(f.world, step);
    ClientsUnchanged(f.world, step);
  }

  /** Because it asks for exactly what it holds, a reconnecting client never overclaims. */
  lemma ResumptionJoins(f: Fleet, c: string)
    requires Matches(HeldBy(f, c), ClientOf(f.world, c), f.world.manager.instanceId)
    requires c !in f.world.manager.queues && !f.world.manager.AtCapacity()
    ensures var w, w' := f.world, Next(f.world, Resumption(f, c));
            && w'.clients == w.clients[c := ClientOf(w, c).(suspect := false)]
            && w'.manager.queues.Keys == w.manager.queues.Keys + {c}
  {
    hide Greeting, OfferAll, OfferAllLink;
  }

  lemma HeldMatches(f: Fleet, c: string)
    requires FleetInv(f)
    ensures Matches(HeldBy(f, c), ClientOf(f.world, c), f.world.manager.instanceId)
    ensures HeldBy(f, c).instance.Some? ==> HeldBy(f, c).instance.value in f.used
  {
    hide Inv, OwnMessages;
  }

  lemma TrustRestored(h: Held, k: Client, instanceId: string)
    requires Matches(h, k, instanceId)
    ensures Matches(h.(suspect := false), k.(suspect := false), instanceId)
  {
  }

  /** One client's change of holdings keeps the invariant if the two sides change together. */
  lemma HoldingKeepsInv(f: Fleet, f': Fleet, c: string, h: Held, k: Client)
    requires FleetInv(f) && Inv(f'.world) && OwnMessages(f'.world)
    requires f'.world.manager.instanceId == f.world.manager.instanceId && f'.used == f.used
    requires f'.held == f.held[c := h] && f'.world.clients == f.world.clients[c := k]
    requires f'.world.manager.queues.Keys <= f.world.manager.queues.Keys + {c}
    requires Matches(h, k, f.world.manager.instanceId) && h.suspect == k.suspect
    requires h.instance.Some? ==> h.instance.value in f.used
    ensures FleetInv(f')
  {
    hide Inv, OwnMessages, Matches;
    forall d | d in f'.held
      ensures Matches(f'.held[d], ClientOf(f'.world, d), f'.world.manager.instanceId)
      ensures f'.held[d].instance.Some? ==> f'.held[d].instance.value in f'.used
    {
      if d != c {
        assert d in f.held && ClientOf(f'.world, d) == ClientOf(f.world, d);
      }
    }
  }

  lemma ReconnectKeepsInv(f: Fleet, c: string)
    requires FleetInv(f)
    ensures FleetInv(Happens(f, Reconnects(c)))
  {
    hide Inv, OwnMessages, LinksFit, Next, Matches, Resumption, FleetInv;
    var w, m, h := f.world, f.world.manager, HeldBy(f, c);
    if c in m.queues || m.AtCapacity() {
      return;
    }
    WorldOk(f);
    NextKeepsInv(w, Resumption(f, c));
    LinksOf(w);
    NextOwn(w, Resumption(f, c));
    HeldMatches(f, c);
    ResumptionJoins(f, c);
    TrustRestored(h, ClientOf(w, c), m.instanceId);
    HoldingKeepsInv(f, Happens(f, Reconnects(c)), c, h.(suspect := false), ClientOf(w, c).(suspect := false));
  }

  lemma WorldOk(f: Fleet)
    requires FleetInv(f)
    ensures Inv(f.world) && OwnMessages(f.world)
    ensures forall c :: c in f.world.manager.queues ==> c in f.held && f.held[c].suspect == ClientOf(f.world, c).suspect
  {
    hide Inv, OwnMessages;
  }

  lemma DeliveryReceives(w: World, c: string)
    requires LinksFit(w) && c in w.manager.queues && w.manager.queues[c] != []
    ensures var w' := Next(w, Deliver(c));
            && w'.clients == w.clients[c := Receive(ClientOf(w, c), w.manager.queues[c][0])]
            && w'.manager.queues.Keys == w.manager.queues.Keys
  {
    hide Receive, LinkOk;
  }

  lemma DeliveryKeepsInv(f: Fleet, c: string)
    requires FleetInv(f)
    ensures FleetInv(Happens(f, Delivered(c)))
  {
    hide Inv, Take, Receive, Matches, LinksFit, Next, FleetInv;
    var w, m := f.world, f.world.manager;
    if c !in m.queues || m.queues[c] == [] || c !in w.links || w.links[c].queue == [] {
      return;
    }
    WorldOk(f);
    NextKeepsInv(w, Deliver(c));
    LinksOf(w);
    NextOwn(w, Deliver(c));
    DeliveryReceives(w, c);
    HeldMatches(f, c);
    var e := m.queues[c][0];
    TakeMatches(f.held[c], ClientOf(w, c), e, m.instanceId);
    PresentUsed(f);
    HoldingKeepsInv(f, Happens(f, Delivered(c)), c, Take(f.held[c], e), Receive(ClientOf(w, c), e));
  }

  lemma PresentUsed(f: Fleet)
    requires FleetInv(f)
    ensures f.world.manager.instanceId in f.used
  {
    hide Inv, OwnMessages;
  }

  lemma EmptyWorldInv(m: ManagerState)
    requires m == Start(m.instanceId, m.replaySize, m.queueSize, m.maxConnections) && m.queueSize >= 1
    ensures Inv(StartWorld(m)) && OwnMessages(StartWorld(m))
  {
    hide Equivalent, DeltaBetween, LinkOk, ConnectionOk, Tracks;
  }

  /** A restart forgets every connection and makes every client a newcomer to the protocol,
      because no client can hold anything of an instance id that was never used. */
  lemma RestartKeepsInv(f: Fleet, id: string)
    requires FleetInv(f)
    ensures FleetInv(Happens(f, Restarted(id)))
  {
    hide Inv, OwnMessages;
    if id !in f.used {
      LinksOf(f.world);
      var m := f.world.manager;
      EmptyWorldInv(Start(id, m.replaySize, m.queueSize, m.maxConnections));
    }
  }

  lemma EventKeepsInv(f: Fleet, ev: Event)
    requires FleetInv(f)
    ensures FleetInv(Happens(f, ev))
  {
    hide FleetInv, Next;
    match ev
    case Sampled(s) => QuietEventKeepsInv(f, Sample(s));
    case Beaten => QuietEventKeepsInv(f, Beat);
    case Reconnects(c) => ReconnectKeepsInv(f, c);
    case Delivered(c) => DeliveryKeepsInv(f, c);
    case Disconnects(c) => QuietEventKeepsInv(f, Leave(c));
    case Restarted(id) => RestartKeepsInv(f, id);
  }

  // ----------------------------------------------------------------------------
  // Guarantees
  // ----------------------------------------------------------------------------

  function Live(f: Fleet, events: seq<Event>): Fleet
    decreases |events|
  {
    if events == [] then f else Live(Happens(f, events[0]), events[1..])
  }

  lemma {:induction false} LiveKeepsInv(f: Fleet, events: seq<Event>)
    requires FleetInv(f)
    ensures FleetInv(Live(f, events))
    decreases |events|
  {
    hide FleetInv, Happens;
    if events != [] {
      EventKeepsInv(f, events[0]);
      LiveKeepsInv(Happens(f, events[0]), events[1..]);
    }
  }

  lemma FromFirstStart(m: ManagerState, events: seq<Event>)
    requires m == Start(m.instanceId, m.replaySize, m.queueSize, m.maxConnections) && m.queueSize >= 1
    ensures FleetInv(Live(StartFleet(m), events))
  {
    hide Inv, OwnMessages, Happens;
    EmptyWorldInv(m);
    LiveKeepsInv(StartFleet(m), events);
  }

  /** Through all restarts no client is ever sent, or replayed, a message of another instance
      than the one it is connected to. */
  lemma NoForeignMessages(m: ManagerState, events: seq<Event>, c: string)
    requires m == Start(m.instanceId, m.replaySize, m.queueSize, m.maxConnections) && m.queueSize >= 1
    requires c in Live(StartFleet(m), events).world.manager.queues
    ensures var w := Live(StartFleet(m), events).world;
            && AllFrom(w.manager.queues[c], w.manager.instanceId)
            && c in w.links && AllFrom(w.links[c].delivered, w.manager.instanceId)
  {
    hide Live, AllFrom;
    FromFirstStart(m, events);
  }

  /** Through all restarts a connected client that is drained and was not warned shows the
      newest sample of the present instance, at the present instance's sequence, whatever it
      held of earlier ones. */
  lemma DrainedClientsShowThisInstance(m: ManagerState, events: seq<Event>, c: string)
    requires m == Start(m.instanceId, m.replaySize, m.queueSize, m.maxConnections) && m.queueSize >= 1
    requires var f := Live(StartFleet(m), events);
             && c in f.world.manager.queues && f.world.manager.queues[c] == [] && f.world.lastSample.Some?
             && c in f.held && !f.held[c].suspect
    ensures var f := Live(StartFleet(m), events);
            && f.held[c].instance == Some(f.world.manager.instanceId)
            && f.held[c].sequence == f.world.manager.sequence
            && f.held[c].view.Some? && Equivalent(f.held[c].view.value, f.world.lastSample.value)
  {
    hide Live, DeltaBetween, LinkOk, RingOf, Apply, CoreOf, OwnMessages;
    FromFirstStart(m, events);
    var f := Live(StartFleet(m), events);
    var w := f.world;
    assert ConnectionOk(w, c) && Tracks(w.log, w.clients[c]);
    assert ReceiveAll(w.clients[c], []) == w.clients[c];
  }

  /** And no client ever misrepresents the present instance: what it holds of it is, up to
      equivalence, the snapshot held at its sequence. */
  lemma HeldViewsAreGenuine(m: ManagerState, events: seq<Event>, c: string)
    requires m == Start(m.instanceId, m.replaySize, m.queueSize, m.maxConnections) && m.queueSize >= 1
    requires var f := Live(StartFleet(m), events);
             c in f.held && f.held[c].instance == Some(f.world.manager.instanceId) && f.held[c].view.Some?
    ensures var f := Live(StartFleet(m), events);
            var k := f.held[c];
            1 <= k.sequence <= |f.world.log| && Equivalent(k.view.value, f.world.log[k.sequence - 1])
  {
    hide Live, DeltaBetween, LinkOk, RingOf, Apply, CoreOf, OwnMessages, LinksFit, ManagerOk, ConnectionOk;
    FromFirstStart(m, events);
    var f := Live(StartFleet(m), events);
    assert Matches(f.held[c], ClientOf(f.world, c), f.world.manager.instanceId);
    if c in f.world.clients {
      assert Tracks(f.world.log, f.world.clients[c]);
    }
  }
}
