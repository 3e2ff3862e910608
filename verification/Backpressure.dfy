/** What one client's bounded queue lost, and the markers it left behind. */
module Backpressure {
  import opened Replay
  import opened Manager

  /** Everything ever put in a queue, in order; Lost entries never reached the client. */
  datatype Slot = Kept(e: Envelope) | Lost(e: Envelope)

  /** A connection's queue with its history: `delivered` is what the client received. */
  datatype Link = Link(queue: Queue, delivered: seq<Envelope>, stream: seq<Slot>)

  const OPEN_LINK := Link([], [], [])

  function KeptOf(stream: seq<Slot>): seq<Envelope>
  {
    if stream == [] then []
    else
      var init, last := KeptOf(stream[..|stream| - 1]), stream[|stream| - 1];
      if last.Kept? then init + [last.e] else init
  }

  /** Marks the `n`-th kept entry as lost, if there is one. */
  function Lose(stream: seq<Slot>, n: nat): seq<Slot>
  {
    if stream == [] then []
    else
      var init, last := stream[..|stream| - 1], stream[|stream| - 1];
      if last.Kept? && n == |KeptOf(init)| then init + [Lost(last.e)]
      else Lose(init, n) + [last]
  }

  predicate IsMarker(s: Slot)
  {
    s.Kept? && s.e.payload.ResyncPayload?
  }

  /** Every loss is followed by a resync marker that was not lost itself. */
  ghost predicate LossesMarked(stream: seq<Slot>)
  {
    forall i :: 0 <= i < |stream| && stream[i].Lost? ==> exists j :: i < j < |stream| && IsMarker(stream[j])
  }

  ghost predicate LinkOk(l: Link, size: nat)
  {
    && |l.queue| <= size
    && KeptOf(l.stream) == l.delivered + l.queue
    && LossesMarked(l.stream)
  }

  function OfferLink(l: Link, m: Envelope, marker: Envelope, size: nat): Link
  {
    var queue := Offer(l.queue, m, marker, size);
    if |l.queue| < size then l.(queue := queue, stream := l.stream + [Kept(m)])
    else l.(queue := queue, stream := Lose(l.stream, |l.delivered|) + [Lost(m), Kept(marker)])
  }

  function DeliverLink(l: Link): Link
    requires l.queue != []
  {
    Link(l.queue[1..], l.delivered + [l.queue[0]], l.stream)
  }

  lemma {:induction false} LoseKept(stream: seq<Slot>, n: nat)
    requires n < |KeptOf(stream)|
    ensures |Lose(stream, n)| == |stream|
    ensures KeptOf(Lose(stream, n)) == KeptOf(stream)[..n] + KeptOf(stream)[n + 1..]
  {
    var init, last := stream[..|stream| - 1], stream[|stream| - 1];
    if last.Kept? && n == |KeptOf(init)| {
      assert (init + [Lost(last.e)])[..|init|] == init;
    } else {
      LoseKept(init, n);
      var r := Lose(init, n);
      assert (r + [last])[..|r|] == r;
    }
  }

  lemma KeptAppend(stream: seq<Slot>, s: Slot)
    ensures KeptOf(stream + [s]) == if s.Kept? then KeptOf(stream) + [s.e] else KeptOf(stream)
  {
    assert (stream + [s])[..|stream|] == stream;
  }

  lemma RoomKeepsLinkOk(l: Link, m: Envelope, size: nat)
    requires LinkOk(l, size) && |l.queue| < size
    ensures LinkOk(l.(queue := l.queue + [m], stream := l.stream + [Kept(m)]), size)
  {
    hide KeptOf;
    var stream := l.stream + [Kept(m)];
    KeptAppend(l.stream, Kept(m));
    forall i | 0 <= i < |stream| && stream[i].Lost? ensures exists j :: i < j < |stream| && IsMarker(stream[j]) {
      assert l.stream[i].Lost?;
      var j :| i < j < |l.stream| && IsMarker(l.stream[j]);
      assert IsMarker(stream[j]);
    }
  }

  lemma OverflowKeepsLinkOk(l: Link, m: Envelope, marker: Envelope, size: nat)
    requires size >= 1 && LinkOk(l, size) && |l.queue| == size && marker.payload.ResyncPayload?
    ensures LinkOk(l.(queue := l.queue[1..] + [marker],
                      stream := Lose(l.stream, |l.delivered|) + [Lost(m), Kept(marker)]), size)
  {
    hide KeptOf, Lose;
    var n := |l.delivered|;
    var thinned := Lose(l.stream, n);
    LoseKept(l.stream, n);
    KeptAppend(thinned, Lost(m));
    KeptAppend(thinned + [Lost(m)], Kept(marker));
    var stream := thinned + [Lost(m), Kept(marker)];
    assert stream == thinned + [Lost(m)] + [Kept(marker)];
    assert KeptOf(l.stream)[..n] == l.delivered;
    assert KeptOf(l.stream)[n + 1..] == l.queue[1..];
    assert IsMarker(stream[|stream| - 1]);
  }

  /** Backpressure keeps the bound, accounts for every message, and marks every loss. */
  lemma OfferKeepsLinkOk(l: Link, m: Envelope, marker: Envelope, size: nat)
    requires size >= 1 && LinkOk(l, size) && marker.payload.ResyncPayload?
    ensures LinkOk(OfferLink(l, m, marker, size), size)
    ensures OfferLink(l, m, marker, size).queue == Offer(l.queue, m, marker, size)
  {
    hide KeptOf, Lose, LossesMarked;
    if |l.queue| < size {
      RoomKeepsLinkOk(l, m, size);
    } else {
      OverflowKeepsLinkOk(l, m, marker, size);
    }
  }

  lemma DeliverKeepsLinkOk(l: Link, size: nat)
    requires LinkOk(l, size) && l.queue != []
    ensures LinkOk(DeliverLink(l), size)
  {
    assert l.queue == [l.queue[0]] + l.queue[1..];
  }

  lemma {:induction false} KeptMembers(stream: seq<Slot>, e: Envelope)
    requires Kept(e) in stream
    ensures e in KeptOf(stream)
  {
    var init, last := stream[..|stream| - 1], stream[|stream| - 1];
    assert stream == init + [last];
    if last != Kept(e) {
      KeptMembers(init, e);
    }
  }

  /** After a loss a resync marker was delivered or is still waiting in the queue. */
  lemma LossLeavesMarker(l: Link, size: nat, i: nat)
    requires LinkOk(l, size) && i < |l.stream| && l.stream[i].Lost?
    ensures exists e: Envelope :: e.payload.ResyncPayload? && (e in l.delivered || e in l.queue)
  {
    var j :| i < j < |l.stream| && IsMarker(l.stream[j]);
    var e := l.stream[j].e;
    KeptMembers(l.stream, e);
    assert e in l.delivered || e in l.queue;
  }
}
