/** Runs of the realtime protocol: one manager, its clients, their connections, and
    any interleaving of samples, heartbeats, connects, deliveries and disconnects. */
module Synchronisation {
  import opened Common
  import opened Delta
  import opened Replay
  import opened Manager
  import opened Backpressure

  // ----------------------------------------------------------------------------
  // The client
  // ----------------------------------------------------------------------------

  /** What a client holds. It is `suspect` once it has received a resync notice, or has
      asked for a replay from beyond its own sequence, until it next synchronises. */
  datatype Client = Client(sequence: int, view: Option<Snapshot>, suspect: bool)

  const NEWCOMER := Client(0, None, false)

  /** Snapshots are taken as they come; a delta only when it is the very next one. */
  function Receive(k: Client, e: Envelope): Client
  {
    match e.payload
    case SnapshotPayload(s) => Client(e.sequence, Some(s), false)
    case DeltaPayload(d) =>
      if k.view.Some? && e.sequence == k.sequence + 1
      then k.(sequence := e.sequence, view := Some(Apply(k.view.value, d)))
      else k
    case HeartbeatPayload => k
    case ResyncPayload(_) => k.(suspect := true)
  }

  function ReceiveAll(k: Client, q: seq<Envelope>): Client
  {
    if q == [] then k else Receive(ReceiveAll(k, q[..|q| - 1]), q[|q| - 1])
  }

  lemma ReceiveAllAppend(k: Client, q: seq<Envelope>, e: Envelope)
    ensures ReceiveAll(k, q + [e]) == Receive(ReceiveAll(k, q), e)
  {
    assert (q + [e])[..|q|] == q;
  }

  lemma {:induction false} ReceiveAllHead(k: Client, q: seq<Envelope>)
    requires q != []
    ensures ReceiveAll(k, q) == ReceiveAll(Receive(k, q[0]), q[1..])
  {
    if |q| == 1 {
      assert q[..0] == [] && q[1..] == [];
      ReceiveAllAppend(k, [], q[0]);
    } else {
      ReceiveAllHead(k, q[..|q| - 1]);
      assert q[..|q| - 1][1..] == q[1..][..|q| - 2];
    }
  }

  // ----------------------------------------------------------------------------
  // The system
  // ----------------------------------------------------------------------------

  /** `log[i]` is the snapshot the manager held at sequence `i + 1` and `sent[i]` the
      message it transmitted then; `lastSample` is the newest snapshot it was handed;
      `overclaimed` are the connected clients that asked to resume beyond what they held. */
  datatype World = World(
    manager: ManagerState, log: seq<Snapshot>, sent: seq<Envelope>, lastSample: Option<Snapshot>,
    clients: map<string, Client>, links: map<string, Link>, overclaimed: set<string>)

  datatype Step =
    | Sample(s: Snapshot)
    | Beat
    | Join(c: string, knownInstance: Option<string>, fromSequence: Option<int>)
    | Deliver(c: string)
    | Leave(c: string)

  function StartWorld(m: ManagerState): World
  {
    World(m, [], [], None, map[], map[], {})
  }

  function ClientOf(w: World, c: string): Client
  {
    if c in w.clients then w.clients[c] else NEWCOMER
  }

  /** A client claims too much when it asks to resume beyond what it holds. */
  predicate Overclaims(m: ManagerState, k: Client, knownInstance: Option<string>, fromSequence: Option<int>)
  {
    knownInstance == Some(m.instanceId) && fromSequence.Some? && fromSequence.value > k.sequence
  }

  function OfferLinks(w: World, m: ManagerState, e: Envelope): map<string, Link>
  {
    map c | c in w.links :: OfferLink(w.links[c], e, m.SlowClientMarker(), m.queueSize)
  }

  function OfferAllLink(ms: seq<Envelope>, marker: Envelope, size: nat): Link
  {
    if ms == [] then OPEN_LINK
    else OfferLink(OfferAllLink(ms[..|ms| - 1], marker, size), ms[|ms| - 1], marker, size)
  }

  lemma {:induction false} OfferAllLinkOk(ms: seq<Envelope>, marker: Envelope, size: nat)
    requires size >= 1 && marker.payload.ResyncPayload?
    ensures LinkOk(OfferAllLink(ms, marker, size), size)
    ensures OfferAllLink(ms, marker, size).queue == OfferAll([], ms, marker, size)
  {
    hide LinkOk, OfferLink, Offer;
    if ms == [] {
      OpenLinkOk(size);
    } else {
      var init := ms[..|ms| - 1];
      OfferAllLinkOk(init, marker, size);
      OfferKeepsLinkOk(OfferAllLink(init, marker, size), ms[|ms| - 1], marker, size);
    }
  }

  lemma OpenLinkOk(size: nat)
    ensures LinkOk(OPEN_LINK, size)
  {
  }

  function Next(w: World, step: Step): World
  {
    var m := w.manager;
    match step
    case Sample(s) =>
      (match MessageFor(m, s)
       case None => w.(lastSample := Some(s))
       case Some(e) =>
         var m' := NewSnapshot(m, s);
         w.(manager := m', log := w.log + [s], sent := w.sent + [e], lastSample := Some(s),
            links := OfferLinks(w, m', e)))
    case Beat =>
      w.(manager := Heartbeat(m),
         links := OfferLinks(w, m, Envelope(m.sequence, m.instanceId, HeartbeatPayload)))
    case Join(c, knownInstance, fromSequence) =>
      if c in m.queues || m.AtCapacity() then w
      else
        var k := ClientOf(w, c);
        var overclaims := Overclaims(m, k, knownInstance, fromSequence);
        w.(manager := Connect(m, c, knownInstance, fromSequence),
           clients := w.clients[c := k.(suspect := overclaims)],
           overclaimed := if overclaims then w.overclaimed + {c} else w.overclaimed - {c},
           links := w.links[c := OfferAllLink(Greeting(m, knownInstance, fromSequence), m.SlowClientMarker(),
                                              m.queueSize)])
    case Deliver(c) =>
      if c !in m.queues || m.queues[c] == [] || c !in w.links || w.links[c].queue == [] then w
      else
        w.(manager := Pop(m, c),
           clients := w.clients[c := Receive(ClientOf(w, c), m.queues[c][0])],
           links := w.links[c := DeliverLink(w.links[c])])
    case Leave(c) =>
      w.(manager := Unregister(m, c), links := w.links - {c})
  }

  // ----------------------------------------------------------------------------
  // The invariant
  // ----------------------------------------------------------------------------

  /** The transmitted messages spell out the snapshots held: the first in full, each
      later one as the delta from its predecessor. */
  ghost predicate Transmitted(log: seq<Snapshot>, sent: seq<Envelope>)
  {
    && |log| == |sent|
    && (forall i :: 0 <= i < |sent| ==> sent[i].sequence == i + 1)
    && (log != [] ==> sent[0].payload == SnapshotPayload(log[0]))
    && (forall i :: 1 <= i < |sent| ==>
          sent[i].payload.DeltaPayload? && DeltaBetween(log[i - 1], log[i]) == Some(sent[i].payload.delta))
  }

  ghost predicate LinksFit(w: World)
  {
    && w.manager.queueSize >= 1
    && w.links.Keys == w.manager.queues.Keys
    && (forall c :: c in w.links ==> w.links[c].queue == w.manager.queues[c] && LinkOk(w.links[c], w.manager.queueSize))
  }

  ghost predicate ManagerOk(w: World)
  {
    var m := w.manager;
    && m.queueSize >= 1
    && m.sequence == |w.log|
    && Transmitted(w.log, w.sent)
    && m.ring == RingOf(w.sent, m.replaySize)
    && m.latest == (if w.log == [] then None else Some(w.log[|w.log| - 1]))
    && (w.lastSample.Some? <==> w.log != [])
    && (w.log != [] ==> Equivalent(w.log[|w.log| - 1], w.lastSample.value))
  }

  /** A client's view is, up to equivalence, the snapshot held at the client's sequence. */
  ghost predicate Tracks(log: seq<Snapshot>, k: Client)
  {
    && 0 <= k.sequence <= |log|
    && (k.view.None? <==> k.sequence == 0)
    && (k.view.Some? ==> Equivalent(k.view.value, log[k.sequence - 1]))
  }

  ghost predicate Genuine(log: seq<Snapshot>, sent: seq<Envelope>, e: Envelope)
    requires |log| == |sent|
  {
    && (e.payload.SnapshotPayload? ==> 1 <= e.sequence <= |log| && e.payload.snapshot == log[e.sequence - 1])
    && (e.payload.DeltaPayload? ==> 2 <= e.sequence <= |log| && e == sent[e.sequence - 1])
  }

  ghost predicate AllGenuine(log: seq<Snapshot>, sent: seq<Envelope>, q: seq<Envelope>)
    requires |log| == |sent|
  {
    forall i :: 0 <= i < |q| ==> Genuine(log, sent, q[i])
  }

  /** Were its queue drained now, the client would be level with the manager, or know it may not be. */
  ghost predicate WillCatchUp(sequence: nat, k: Client, q: Queue)
  {
    var k' := ReceiveAll(k, q);
    k'.suspect || k'.sequence == sequence
  }

  ghost predicate HasMarker(ms: seq<Envelope>)
  {
    exists i :: 0 <= i < |ms| && ms[i].payload.ResyncPayload?
  }

  ghost predicate ConnectionOk(w: World, c: string)
    requires |w.log| == |w.sent| && c in w.manager.queues && c in w.links
  {
    && c in w.clients
    && (w.clients[c].suspect ==> c in w.overclaimed || HasMarker(w.links[c].delivered))
    && AllGenuine(w.log, w.sent, w.manager.queues[c])
    && WillCatchUp(w.manager.sequence, w.clients[c], w.manager.queues[c])
  }

  ghost predicate Inv(w: World)
  {
    && LinksFit(w)
    && ManagerOk(w)
    && (forall c :: c in w.clients ==> Tracks(w.log, w.clients[c]))
    && (forall c :: c in w.manager.queues ==> ConnectionOk(w, c))
  }

  // ----------------------------------------------------------------------------
  // Preservation
  // ----------------------------------------------------------------------------

  lemma SnapshotEquivalent(s: Snapshot)
    ensures Equivalent(s, s)
  {
  }

  lemma ReceiveTracks(log: seq<Snapshot>, sent: seq<Envelope>, k: Client, e: Envelope)
    requires Transmitted(log, sent) && Tracks(log, k) && Genuine(log, sent, e)
    ensures Tracks(log, Receive(k, e))
  {
    hide Apply, DeltaBetween, Equivalent;
    if e.payload.SnapshotPayload? {
      SnapshotEquivalent(e.payload.snapshot);
    }
    if e.payload.DeltaPayload? && k.view.Some? && e.sequence == k.sequence + 1 {
      DeltaApplies(k.view.value, log[k.sequence - 1], log[k.sequence]);
    }
  }

  lemma {:induction false} ReceiveAllTracks(log: seq<Snapshot>, sent: seq<Envelope>, k: Client, q: Queue)
    requires Transmitted(log, sent) && Tracks(log, k)
    requires AllGenuine(log, sent, q)
    ensures Tracks(log, ReceiveAll(k, q))
  {
    if q != [] {
      ReceiveAllTracks(log, sent, k, q[..|q| - 1]);
      ReceiveTracks(log, sent, ReceiveAll(k, q[..|q| - 1]), q[|q| - 1]);
    }
  }

  /** Offering the next message keeps a connection on course. */
  lemma OfferKeepsCourse(sequence: nat, next: nat, k: Client, q: Queue, e: Envelope, marker: Envelope, size: nat)
    requires size >= 1 && marker.payload.ResyncPayload?
    requires WillCatchUp(sequence, k, q)
    requires var k' := ReceiveAll(k, q); k'.view.None? ==> k'.sequence <= 0
    requires
      || (e.payload.SnapshotPayload? && e.sequence == next)
      || (e.payload.DeltaPayload? && e.sequence == next == sequence + 1 >= 2)
      || (e.payload.HeartbeatPayload? && next == sequence)
    ensures WillCatchUp(next, k, Offer(q, e, marker, size))
  {
    hide Apply;
    if |q| < size {
      ReceiveAllAppend(k, q, e);
    } else {
      ReceiveAllAppend(k, q[1..], marker);
    }
  }

  /** Filling a fresh queue ends where plain receipt would, unless the client is warned. */
  lemma {:induction false} OfferAllCourse(k: Client, ms: seq<Envelope>, marker: Envelope, size: nat)
    requires size >= 1 && marker.payload.ResyncPayload?
    ensures var k' := ReceiveAll(k, OfferAll([], ms, marker, size));
            k'.suspect || k' == ReceiveAll(k, ms)
  {
    hide Apply;
    if ms != [] {
      var init, last := ms[..|ms| - 1], ms[|ms| - 1];
      OfferAllCourse(k, init, marker, size);
      var q := OfferAll([], init, marker, size);
      if |q| < size {
        ReceiveAllAppend(k, q, last);
      } else {
        ReceiveAllAppend(k, if q == [] then [] else q[1..], marker);
      }
    }
  }

  lemma OfferGenuine(log: seq<Snapshot>, sent: seq<Envelope>, q: Queue, e: Envelope, marker: Envelope, size: nat)
    requires |log| == |sent| && AllGenuine(log, sent, q)
    requires Genuine(log, sent, e) && Genuine(log, sent, marker)
    ensures AllGenuine(log, sent, Offer(q, e, marker, size))
  {
  }

  lemma {:induction false} OfferAllGenuine(log: seq<Snapshot>, sent: seq<Envelope>, ms: seq<Envelope>, marker: Envelope,
                                           size: nat)
    requires |log| == |sent| && Genuine(log, sent, marker) && AllGenuine(log, sent, ms)
    ensures AllGenuine(log, sent, OfferAll([], ms, marker, size))
  {
    if ms != [] {
      var init := ms[..|ms| - 1];
      OfferAllGenuine(log, sent, init, marker, size);
      OfferGenuine(log, sent, OfferAll([], init, marker, size), ms[|ms| - 1], marker, size);
    }
  }

  lemma SentGenuine(log: seq<Snapshot>, sent: seq<Envelope>, from: nat, upto: nat)
    requires Transmitted(log, sent) && from <= upto <= |sent|
    ensures AllGenuine(log, sent, sent[from..upto])
  {
    hide DeltaBetween;
    forall i | 0 <= i < upto - from ensures Genuine(log, sent, sent[from..upto][i]) {
      assert sent[from..upto][i] == sent[from + i];
    }
  }

  /** Receiving everything after `from` brings a client that holds at least that much
      level; one that overclaimed stays suspect. */
  lemma {:induction false} ReplayCatchesUp(log: seq<Snapshot>, sent: seq<Envelope>, k: Client, from: nat, upto: nat)
    requires Transmitted(log, sent) && Tracks(log, k)
    requires from <= upto <= |sent|
    ensures var k' := ReceiveAll(k, sent[from..upto]);
            && (k.suspect && from >= 1 ==> k'.suspect)
            && (from <= k.sequence ==>
                  k'.sequence == if upto < k.sequence && (from > 0 || upto == 0) then k.sequence else upto)
            && Tracks(log, k')
  {
    hide Apply, DeltaBetween, Equivalent, AllGenuine, Genuine;
    if from < upto {
      ReplayCatchesUp(log, sent, k, from, upto - 1);
      var q, e := sent[from..upto - 1], sent[upto - 1];
      assert sent[from..upto] == q + [e];
      ReceiveAllAppend(k, q, e);
      SentGenuine(log, sent, from, upto);
      ReceiveAllTracks(log, sent, k, sent[from..upto]);
      assert e.sequence == upto;
      assert if upto == 1 then e.payload.SnapshotPayload? else e.payload.DeltaPayload?;
    }
  }

  predicate IsReplay(m: ManagerState, knownInstance: Option<string>, fromSequence: Option<int>)
  {
    knownInstance == Some(m.instanceId) && fromSequence.Some? && MessagesSince(m.ring, fromSequence.value).Some?
  }

  lemma ReplayGreeting(w: World, k: Client, knownInstance: Option<string>, fromSequence: Option<int>)
    requires ManagerOk(w) && Tracks(w.log, k) && IsReplay(w.manager, knownInstance, fromSequence)
    requires Overclaims(w.manager, k, knownInstance, fromSequence) ==> k.suspect
    ensures var g := Greeting(w.manager, knownInstance, fromSequence);
            AllGenuine(w.log, w.sent, g) && WillCatchUp(w.manager.sequence, k, g)
  {
    hide Apply, Equivalent, DeltaBetween, MessagesSince, Genuine, RingOf, ReceiveAll;
    var m, from := w.manager, fromSequence.value;
    ReplayExact(w.sent, m.replaySize, from);
    var g := Greeting(m, knownInstance, fromSequence);
    assert g == MessagesSince(m.ring, from).value;
    if from < |w.sent| {
      assert g == w.sent[from..] == w.sent[from..|w.sent|];
      SentGenuine(w.log, w.sent, from, |w.sent|);
      ReplayCatchesUp(w.log, w.sent, k, from, |w.sent|);
    } else {
      assert g == [];
      NothingReceived(k);
    }
  }

  lemma NothingReceived(k: Client)
    ensures ReceiveAll(k, []) == k
  {
  }

  lemma SnapshotGreeting(w: World, k: Client, knownInstance: Option<string>, fromSequence: Option<int>)
    requires ManagerOk(w) && Tracks(w.log, k) && !IsReplay(w.manager, knownInstance, fromSequence)
    ensures var g := Greeting(w.manager, knownInstance, fromSequence);
            AllGenuine(w.log, w.sent, g) && WillCatchUp(w.manager.sequence, k, g)
  {
    hide Apply, Equivalent, DeltaBetween, MessagesSince;
    var m := w.manager;
    var g := Greeting(m, knownInstance, fromSequence);
    if m.latest.Some? {
      var last := Envelope(m.sequence, m.instanceId, SnapshotPayload(m.latest.value));
      assert g[|g| - 1] == last;
      assert Receive(ReceiveAll(k, g[..|g| - 1]), last).sequence == m.sequence;
    } else if g == [] {
      assert m.sequence == 0;
    } else {
      assert g[|g| - 1].payload.ResyncPayload?;
    }
  }

  lemma GreetingCatchesUp(w: World, k: Client, knownInstance: Option<string>, fromSequence: Option<int>)
    requires ManagerOk(w) && Tracks(w.log, k)
    requires Overclaims(w.manager, k, knownInstance, fromSequence) ==> k.suspect
    ensures var g := Greeting(w.manager, knownInstance, fromSequence);
            AllGenuine(w.log, w.sent, g) && WillCatchUp(w.manager.sequence, k, g)
  {
    hide Greeting, WillCatchUp, ManagerOk, AllGenuine, MessagesSince, Tracks;
    if IsReplay(w.manager, knownInstance, fromSequence) {
      ReplayGreeting(w, k, knownInstance, fromSequence);
    } else {
      SnapshotGreeting(w, k, knownInstance, fromSequence);
    }
  }

  lemma LogGrows(w: World, s: Snapshot, e: Envelope)
    requires ManagerOk(w) && MessageFor(w.manager, s) == Some(e)
    ensures Transmitted(w.log + [s], w.sent + [e])
    ensures Push(w.manager.ring, e, w.manager.replaySize) == RingOf(w.sent + [e], w.manager.replaySize)
    ensures forall k :: Tracks(w.log, k) ==> Tracks(w.log + [s], k)
    ensures forall q :: AllGenuine(w.log, w.sent, q) ==> AllGenuine(w.log + [s], w.sent + [e], q)
    ensures Genuine(w.log + [s], w.sent + [e], e)
  {
    hide DeltaBetween, Equivalent, Push, RingOf;
    PushKeepsRing(w.sent, e, w.manager.replaySize);
  }

  /** A broadcast keeps every connection on course and every link accounted for. */
  lemma BroadcastKeeps(w: World, w': World, e: Envelope)
    requires Inv(w) && |w'.log| == |w'.sent| && w'.clients == w.clients && w'.overclaimed == w.overclaimed
    requires w'.manager.queueSize == w.manager.queueSize
    requires w'.manager.queues == map c | c in w.manager.queues ::
               Offer(w.manager.queues[c], e, w'.manager.SlowClientMarker(), w'.manager.queueSize)
    requires w'.links == OfferLinks(w, w'.manager, e)
    requires forall q :: AllGenuine(w.log, w.sent, q) ==> AllGenuine(w'.log, w'.sent, q)
    requires Genuine(w'.log, w'.sent, e)
    requires
      || (e.payload.SnapshotPayload? && e.sequence == w'.manager.sequence)
      || (e.payload.DeltaPayload? && e.sequence == w'.manager.sequence == w.manager.sequence + 1 >= 2)
      || (e.payload.HeartbeatPayload? && w'.manager.sequence == w.manager.sequence)
    ensures LinksFit(w')
    ensures forall c :: c in w'.manager.queues ==> ConnectionOk(w', c)
  {
    hide Apply, Equivalent, DeltaBetween, WillCatchUp, LinkOk, OfferLink, Tracks, Genuine, AllGenuine, Offer;
    var marker, size := w'.manager.SlowClientMarker(), w'.manager.queueSize;
    forall c | c in w'.links
      ensures w'.links[c].queue == w'.manager.queues[c] && LinkOk(w'.links[c], size)
    {
      OfferKeepsLinkOk(w.links[c], e, marker, size);
    }
    forall c | c in w'.manager.queues ensures ConnectionOk(w', c) {
      assert ConnectionOk(w, c);
      assert w'.links[c].delivered == w.links[c].delivered by { OfferDelivers(w.links[c], e, marker, size); }
      EndOfQueueTracked(w, c);
      OfferKeepsCourse(w.manager.sequence, w'.manager.sequence, w.clients[c], w.manager.queues[c], e, marker, size);
      MarkerGenuine(w', marker);
      OfferGenuine(w'.log, w'.sent, w.manager.queues[c], e, marker, size);
    }
  }

  lemma OfferDelivers(l: Link, e: Envelope, marker: Envelope, size: nat)
    requires size >= 1 && LinkOk(l, size)
    ensures OfferLink(l, e, marker, size).delivered == l.delivered
  {
  }

  lemma MarkerGenuine(w: World, marker: Envelope)
    requires |w.log| == |w.sent| && marker.payload.ResyncPayload?
    ensures Genuine(w.log, w.sent, marker)
  {
  }

  lemma EndOfQueueTracked(w: World, c: string)
    requires Inv(w) && c in w.manager.queues
    ensures var k' := ReceiveAll(w.clients[c], w.manager.queues[c]); k'.view.None? ==> k'.sequence <= 0
  {
    hide Apply, Equivalent, DeltaBetween;
    assert ConnectionOk(w, c);
    ReceiveAllTracks(w.log, w.sent, w.clients[c], w.manager.queues[c]);
  }

  lemma SampleKeepsInv(w: World, s: Snapshot)
    requires Inv(w)
    ensures Inv(Next(w, Sample(s)))
  {
    hide Apply, DeltaBetween, Equivalent, Push, RingOf, OfferLinks, LinkOk, ConnectionOk, Tracks, AllGenuine;
    var w' := Next(w, Sample(s));
    match MessageFor(w.manager, s)
    case None =>
      NoDeltaIffEquivalent(w.manager.latest.value, s);
      SameConnections(w, w');
    case Some(e) =>
      LogGrows(w, s, e);
      SnapshotEquivalent(s);
      BroadcastKeeps(w, w', e);
  }

  lemma SameConnections(w: World, w': World)
    requires Inv(w) && w' == w.(lastSample := w'.lastSample)
    ensures forall c :: c in w'.manager.queues ==> ConnectionOk(w', c)
  {
    forall c | c in w'.manager.queues ensures ConnectionOk(w', c) {
      assert ConnectionOk(w, c);
    }
  }

  lemma BeatKeepsInv(w: World)
    requires Inv(w)
    ensures Inv(Next(w, Beat))
  {
    hide Apply, DeltaBetween, Equivalent, Push, RingOf, LinkOk, ConnectionOk, Tracks, AllGenuine, OfferLink;
    var e := Envelope(w.manager.sequence, w.manager.instanceId, HeartbeatPayload);
    BroadcastKeeps(w, Next(w, Beat), e);
  }

  /** The newly connected client is on course, however its greeting fits its queue. */
  lemma JoinedOk(w: World, c: string, knownInstance: Option<string>, fromSequence: Option<int>)
    requires Inv(w) && c !in w.manager.queues && !w.manager.AtCapacity()
    ensures var w' := Next(w, Join(c, knownInstance, fromSequence));
            && |w'.log| == |w'.sent| && ConnectionOk(w', c)
            && w'.links[c].queue == w'.manager.queues[c] && LinkOk(w'.links[c], w.manager.queueSize)
  {
    hide Apply, DeltaBetween, Equivalent, LinkOk, Greeting, Transmitted, WillCatchUp, AllGenuine, OfferAll;
    hide OfferAllLink, RingOf;
    var m, w' := w.manager, Next(w, Join(c, knownInstance, fromSequence));
    var k := w'.clients[c];
    assert Tracks(w.log, k);
    assert |w.log| == |w.sent| by { TransmittedLengths(w); }
    GreetingCatchesUp(w, k, knownInstance, fromSequence);
    var g, marker := Greeting(m, knownInstance, fromSequence), m.SlowClientMarker();
    FreshQueue(w, k, g, marker);
    OfferAllLinkOk(g, marker, m.queueSize);
  }

  lemma JoinKeepsInv(w: World, c: string, knownInstance: Option<string>, fromSequence: Option<int>)
    requires Inv(w)
    ensures Inv(Next(w, Join(c, knownInstance, fromSequence)))
  {
    hide Apply, DeltaBetween, Equivalent, LinkOk, Greeting, Transmitted, WillCatchUp, AllGenuine, OfferAll;
    hide OfferAllLink, RingOf, HasMarker, Overclaims, Receive, KeptOf, LossesMarked, GreetingFrom, MessagesSince;
    hide ConnectionOk;
    var m, w' := w.manager, Next(w, Join(c, knownInstance, fromSequence));
    if c in m.queues || m.AtCapacity() {
      return;
    }
    JoinedOk(w, c, knownInstance, fromSequence);
    forall d | d in w'.manager.queues && d != c ensures ConnectionOk(w', d) {
      OthersUndisturbed(w, c, knownInstance, fromSequence, d);
    }
  }

  lemma OthersUndisturbed(w: World, c: string, knownInstance: Option<string>, fromSequence: Option<int>, d: string)
    requires Inv(w) && d in w.manager.queues && d != c
    ensures var w' := Next(w, Join(c, knownInstance, fromSequence));
            && |w'.log| == |w'.sent| && d in w'.manager.queues && d in w'.links && ConnectionOk(w', d)
  {
    hide Apply, DeltaBetween, Equivalent, LinkOk, GreetingFrom, WillCatchUp, AllGenuine, OfferAll;
    hide OfferAllLink, RingOf, HasMarker, Overclaims, Tracks;
    assert ConnectionOk(w, d);
  }

  lemma TransmittedLengths(w: World)
    requires ManagerOk(w)
    ensures |w.log| == |w.sent|
  {
  }

  lemma FreshQueue(w: World, k: Client, g: seq<Envelope>, marker: Envelope)
    requires |w.log| == |w.sent| && w.manager.queueSize >= 1 && marker.payload.ResyncPayload?
    requires AllGenuine(w.log, w.sent, g) && WillCatchUp(w.manager.sequence, k, g)
    ensures AllGenuine(w.log, w.sent, OfferAll([], g, marker, w.manager.queueSize))
    ensures WillCatchUp(w.manager.sequence, k, OfferAll([], g, marker, w.manager.queueSize))
  {
    MarkerGenuine(w, marker);
    OfferAllGenuine(w.log, w.sent, g, marker, w.manager.queueSize);
    OfferAllCourse(k, g, marker, w.manager.queueSize);
  }

  lemma DeliverKeepsInv(w: World, c: string)
    requires Inv(w)
    ensures Inv(Next(w, Deliver(c)))
  {
    hide Apply, DeltaBetween, Equivalent, LinkOk, ReceiveAll, RingOf, LinkOk, Genuine, Tracks;
    var w' := Next(w, Deliver(c));
    if c !in w.manager.queues || w.manager.queues[c] == [] {
      return;
    }
    var q, k, l := w.manager.queues[c], w.clients[c], w.links[c];
    assert ConnectionOk(w, c);
    ReceiveTracks(w.log, w.sent, k, q[0]);
    ReceiveAllHead(k, q);
    DeliverKeepsLinkOk(l, w.manager.queueSize);
    DeliveredMarkers(l, k);
    forall d | d in w'.manager.queues ensures ConnectionOk(w', d) {
      assert ConnectionOk(w, d);
    }
  }

  lemma DeliveredMarkers(l: Link, k: Client)
    requires l.queue != []
    ensures HasMarker(l.delivered) ==> HasMarker(DeliverLink(l).delivered)
    ensures Receive(k, l.queue[0]).suspect ==> k.suspect || HasMarker(DeliverLink(l).delivered)
  {
    var d := DeliverLink(l).delivered;
    assert d[|d| - 1] == l.queue[0];
    if HasMarker(l.delivered) {
      var i :| 0 <= i < |l.delivered| && l.delivered[i].payload.ResyncPayload?;
      assert d[i].payload.ResyncPayload?;
    }
  }

  lemma LeaveKeepsInv(w: World, c: string)
    requires Inv(w)
    ensures Inv(Next(w, Leave(c)))
  {
    hide Apply, DeltaBetween, Equivalent, LinkOk, WillCatchUp, RingOf, LinkOk, AllGenuine, Tracks;
    var w' := Next(w, Leave(c));
    forall d | d in w'.manager.queues ensures ConnectionOk(w', d) {
      assert ConnectionOk(w, d);
    }
  }

  lemma NextKeepsInv(w: World, step: Step)
    requires Inv(w)
    ensures Inv(Next(w, step))
  {
    hide Inv, Next;
    match step
    case Sample(s) => SampleKeepsInv(w, s);
    case Beat => BeatKeepsInv(w);
    case Join(c, i, f) => JoinKeepsInv(w, c, i, f);
    case Deliver(c) => DeliverKeepsInv(w, c);
    case Leave(c) => LeaveKeepsInv(w, c);
  }
}
