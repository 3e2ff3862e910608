/** The connection manager: sequencing, replay, per-client bounded queues and broadcast. */
module Manager {
  import opened Common
  import opened Delta
  import opened Replay

  // ----------------------------------------------------------------------------
  // What each operation does, on values
  // ----------------------------------------------------------------------------

  type Queue = seq<Envelope>

  datatype ManagerState = ManagerState(
    instanceId: string, replaySize: nat, queueSize: nat, maxConnections: nat,
    sequence: nat, latest: Option<Snapshot>, ring: seq<Envelope>, queues: map<string, Queue>)
  {
    predicate AtCapacity()
    {
      |queues| >= maxConnections
    }

    function SlowClientMarker(): Envelope
    {
      Envelope(sequence, instanceId, ResyncPayload("slow_client_backpressure"))
    }
  }

  function Start(instanceId: string, replaySize: nat, queueSize: nat, maxConnections: nat): ManagerState
  {
    ManagerState(instanceId, replaySize, queueSize, maxConnections, 0, None, [], map[])
  }

  /** A full queue loses its oldest message and the new one, and gains a resync marker. */
  function Offer(q: Queue, m: Envelope, marker: Envelope, size: nat): Queue
  {
    if |q| < size then q + [m]
    else (if q == [] then [] else q[1..]) + [marker]
  }

  function OfferAll(q: Queue, ms: seq<Envelope>, marker: Envelope, size: nat): Queue
  {
    if ms == [] then q
    else Offer(OfferAll(q, ms[..|ms| - 1], marker, size), ms[|ms| - 1], marker, size)
  }

  function Broadcast(m: ManagerState, e: Envelope): ManagerState
  {
    m.(queues := map c | c in m.queues :: Offer(m.queues[c], e, m.SlowClientMarker(), m.queueSize))
  }

  /** The message a fresh sample gives rise to, if any. */
  function MessageFor(m: ManagerState, s: Snapshot): Option<Envelope>
  {
    match m.latest
    case None => Some(Envelope(m.sequence + 1, m.instanceId, SnapshotPayload(s)))
    case Some(previous) =>
      match DeltaBetween(previous, s)
      case None => None
      case Some(d) => Some(Envelope(m.sequence + 1, m.instanceId, DeltaPayload(d)))
  }

  function Transmit(m: ManagerState, s: Snapshot, e: Envelope): ManagerState
  {
    Broadcast(m.(sequence := m.sequence + 1, latest := Some(s), ring := Push(m.ring, e, m.replaySize)), e)
  }

  /** A sample that changes nothing observable is dropped and is not even remembered. */
  function NewSnapshot(m: ManagerState, s: Snapshot): ManagerState
  {
    match MessageFor(m, s)
    case None => m
    case Some(e) => Transmit(m, s, e)
  }

  function Heartbeat(m: ManagerState): ManagerState
  {
    Broadcast(m, Envelope(m.sequence, m.instanceId, HeartbeatPayload))
  }

  /** The messages a client is sent on connecting: a replay, or a snapshot (if there
      is one) that a resync notice precedes when the requested replay was evicted. */
  function GreetingFrom(sequence: nat, instanceId: string, latest: Option<Snapshot>, ring: seq<Envelope>,
                        knownInstance: Option<string>, fromSequence: Option<int>): seq<Envelope>
  {
    var snapshot := if latest.Some? then [Envelope(sequence, instanceId, SnapshotPayload(latest.value))] else [];
    if knownInstance == Some(instanceId) && fromSequence.Some? then
      match MessagesSince(ring, fromSequence.value)
      case Some(missing) => missing
      case None => [Envelope(sequence, instanceId, ResyncPayload("sequence_gap_evicted"))] + snapshot
    else snapshot
  }

  function Greeting(m: ManagerState, knownInstance: Option<string>, fromSequence: Option<int>): seq<Envelope>
  {
    GreetingFrom(m.sequence, m.instanceId, m.latest, m.ring, knownInstance, fromSequence)
  }

  function Connect(m: ManagerState, c: string, knownInstance: Option<string>, fromSequence: Option<int>): ManagerState
  {
    if m.AtCapacity() then m
    else m.(queues := m.queues[c :=
      OfferAll([], Greeting(m, knownInstance, fromSequence), m.SlowClientMarker(), m.queueSize)])
  }

  function Unregister(m: ManagerState, c: string): ManagerState
  {
    m.(queues := m.queues - {c})
  }

  function Pop(m: ManagerState, c: string): ManagerState
    requires c in m.queues && m.queues[c] != []
  {
    m.(queues := m.queues[c := m.queues[c][1..]])
  }

  // ----------------------------------------------------------------------------
  // The manager object
  // ----------------------------------------------------------------------------

  class ClientSession {
    const clientId: string
    const queueSize: nat
    var queue: Queue
    var isClosing: bool

    constructor (clientId: string, queueSize: nat)
      ensures this.clientId == clientId && this.queueSize == queueSize
      ensures queue == [] && !isClosing
    {
      this.clientId, this.queueSize := clientId, queueSize;
      queue, isClosing := [], false;
    }
  }

  class ConnectionManager {
    const instanceId: string
    const clientQueueSize: nat
    const maxConnections: nat
    const replayBuffer: ReplayBuffer
    var sequence: nat
    var latestSnapshot: Option<Snapshot>
    var clients: map<string, ClientSession>

    ghost predicate Valid()
      reads this, clients.Values
    {
      && clientQueueSize >= 1
      && (forall c :: c in clients ==> !clients[c].isClosing && clients[c].queueSize == clientQueueSize)
      && (forall c, d :: c in clients && d in clients && c != d ==> clients[c] != clients[d])
    }

    ghost function State(): ManagerState
      reads this, replayBuffer, clients.Values
    {
      ManagerState(instanceId, replayBuffer.maxSize, clientQueueSize, maxConnections,
                   sequence, latestSnapshot, replayBuffer.buffer,
                   map c | c in clients :: clients[c].queue)
    }

    constructor (instanceId: string, replaySize: nat, clientQueueSize: nat, maxConnections: nat)
      requires clientQueueSize >= 1
      ensures Valid() && fresh(replayBuffer)
      ensures State() == Start(instanceId, replaySize, clientQueueSize, maxConnections)
    {
      this.instanceId, this.clientQueueSize, this.maxConnections := instanceId, clientQueueSize, maxConnections;
      replayBuffer := new ReplayBuffer(replaySize);
      sequence, latestSnapshot, clients := 0, None, map[];
    }

    /** Enqueues without waiting; on a full queue the oldest message makes room for a
        resync marker. Reports whether the message itself was queued. */
    method SendToClient(session: ClientSession, m: Envelope) returns (sent: bool)
      requires session.queueSize >= 1
      modifies session`queue
      ensures old(session.isClosing) ==> !sent && session.queue == old(session.queue)
      ensures !old(session.isClosing) ==>
        && (sent <==> |old(session.queue)| < session.queueSize)
        && session.queue == Offer(old(session.queue), m,
             Envelope(sequence, instanceId, ResyncPayload("slow_client_backpressure")), session.queueSize)
    {
      if session.isClosing {
        return false;
      }
      if |session.queue| < session.queueSize {
        session.queue := session.queue + [m];
        return true;
      }
      if session.queue != [] {
        session.queue := session.queue[1..];
      }
      var marker := Envelope(sequence, instanceId, ResyncPayload("slow_client_backpressure"));
      session.queue := session.queue + [marker];
      sent := false;
    }

    method BroadcastToAll(m: Envelope)
      requires Valid()
      modifies clients.Values
      ensures Valid()
      ensures State() == Broadcast(old(State()), m)
    {
      var todo := clients.Keys;
      while todo != {}
        invariant todo <= clients.Keys
        invariant Valid()
        invariant forall c :: c in todo ==> clients[c].queue == old(clients[c].queue)
        invariant forall c :: c in clients && c !in todo ==>
          clients[c].queue == Offer(old(clients[c].queue), m, old(State().SlowClientMarker()), clientQueueSize)
      {
        var c :| c in todo;
        var _ := SendToClient(clients[c], m);
        todo := todo - {c};
      }
    }

    /** Handles a snapshot from the sampler: first snapshot, delta, or nothing to say. */
    method HandleNewSnapshot(s: Snapshot) returns (m: Option<Envelope>)
      requires Valid()
      modifies this`sequence, this`latestSnapshot, replayBuffer, clients.Values
      ensures Valid()
      ensures clients == old(clients)
      ensures m == MessageFor(old(State()), s)
      ensures State() == NewSnapshot(old(State()), s)
    {
      hide DeltaBetween;
      if latestSnapshot.None? {
        var first := Envelope(sequence + 1, instanceId, SnapshotPayload(s));
        Publish(s, first);
        return Some(first);
      }
      var delta := ComputeDelta(latestSnapshot.value, s);
      if delta.None? {
        return None;
      }
      var message := Envelope(sequence + 1, instanceId, DeltaPayload(delta.value));
      Publish(s, message);
      m := Some(message);
    }

    method Publish(s: Snapshot, m: Envelope)
      requires Valid()
      modifies this`sequence, this`latestSnapshot, replayBuffer, clients.Values
      ensures Valid() && clients == old(clients)
      ensures State() == Transmit(old(State()), s, m)
    {
      ghost var before := State();
      sequence := sequence + 1;
      replayBuffer.Append(m);
      latestSnapshot := Some(s);
      assert State() == before.(sequence := sequence, latest := Some(s), ring := replayBuffer.buffer) by {
        assert State().queues == before.queues;
      }
      BroadcastToAll(m);
    }

    method SendHeartbeat()
      requires Valid()
      modifies clients.Values
      ensures Valid() && clients == old(clients)
      ensures State() == Heartbeat(old(State()))
    {
      BroadcastToAll(Envelope(sequence, instanceId, HeartbeatPayload));
    }

    method Register(clientId: string) returns (session: ClientSession?)
      requires Valid() && clientId !in clients
      modifies this`clients
      ensures Valid()
      ensures session == null <==> |old(clients)| >= maxConnections
      ensures session == null ==> clients == old(clients)
      ensures session != null ==>
        && fresh(session) && clients == old(clients)[clientId := session]
        && session.queue == [] && session.queueSize == clientQueueSize && !session.isClosing
    {
      if |clients| >= maxConnections {
        return null;
      }
      session := new ClientSession(clientId, clientQueueSize);
      clients := clients[clientId := session];
    }

    method SendAll(session: ClientSession, ms: seq<Envelope>)
      requires session.queueSize >= 1 && !session.isClosing
      modifies session`queue
      ensures session.queue == OfferAll(old(session.queue), ms,
                Envelope(sequence, instanceId, ResyncPayload("slow_client_backpressure")), session.queueSize)
    {
      ghost var marker := Envelope(sequence, instanceId, ResyncPayload("slow_client_backpressure"));
      for i := 0 to |ms|
        invariant session.queue == OfferAll(old(session.queue), ms[..i], marker, session.queueSize)
      {
        assert ms[..i + 1][..i] == ms[..i];
        var _ := SendToClient(session, ms[i]);
      }
      assert ms[..|ms|] == ms;
    }

    /** Brings a newly registered client up to date: a replay, or else the current
        snapshot, after a resync notice when the requested replay was evicted. */
    method Greet(session: ClientSession, knownInstance: Option<string>, fromSequence: Option<int>)
      requires session.queueSize >= 1 && !session.isClosing && session.queue == []
      modifies session`queue
      ensures session.queue == OfferAll(
                [],
                GreetingFrom(sequence, instanceId, latestSnapshot, replayBuffer.buffer, knownInstance, fromSequence),
                Envelope(sequence, instanceId, ResyncPayload("slow_client_backpressure")), session.queueSize)
    {
      hide MessagesSince;
      var replayed := false;
      var notice := Envelope(sequence, instanceId, ResyncPayload("sequence_gap_evicted"));
      ghost var noticed: seq<Envelope> := [];
      if knownInstance == Some(instanceId) && fromSequence.Some? {
        var buffered := replayBuffer.GetMessagesSince(fromSequence.value);
        if buffered.Some? {
          SendAll(session, buffered.value);
          replayed := true;
        } else {
          SendAll(session, [notice]);
          noticed := [notice];
        }
      }
      if !replayed && latestSnapshot.Some? {
        var message := Envelope(sequence, instanceId, SnapshotPayload(latestSnapshot.value));
        ghost var marker := Envelope(sequence, instanceId, ResyncPayload("slow_client_backpressure"));
        assert (noticed + [message])[..|noticed|] == noticed;
        assert OfferAll([], noticed, marker, session.queueSize) == session.queue;
        var _ := SendToClient(session, message);
        assert session.queue == OfferAll([], noticed + [message], marker, session.queueSize);
      }
    }

    /** Connection set-up. Nothing between registration and the greeting suspends. */
    method ConnectClient(clientId: string, knownInstance: Option<string>, fromSequence: Option<int>)
      returns (session: ClientSession?)
      requires Valid() && clientId !in clients
      modifies this`clients
      ensures Valid()
      ensures session == null <==> old(State()).AtCapacity()
      ensures State() == Connect(old(State()), clientId, knownInstance, fromSequence)
    {
      hide GreetingFrom, OfferAll;
      ghost var before := State();
      assert before.queues.Keys == clients.Keys;
      session := Register(clientId);
      if session != null {
        Greet(session, knownInstance, fromSequence);
        assert State().queues == before.queues[clientId := session.queue];
      }
    }

    method UnregisterClient(clientId: string)
      requires Valid()
      modifies this`clients, clients.Values
      ensures Valid()
      ensures State() == Unregister(old(State()), clientId)
    {
      if clientId in clients {
        var session := clients[clientId];
        clients := clients - {clientId};
        session.isClosing := true;
      }
    }

    /** One turn of a client's writer loop: take the oldest message for the socket. */
    method DrainOne(clientId: string) returns (m: Envelope)
      requires Valid() && clientId in clients && clients[clientId].queue != []
      modifies clients.Values
      ensures Valid()
      ensures m == old(clients[clientId].queue)[0]
      ensures State() == Pop(old(State()), clientId)
    {
      var session := clients[clientId];
      m := session.queue[0];
      session.queue := session.queue[1..];
    }
  }
}
