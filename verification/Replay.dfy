/** Message envelopes and the bounded ring of recent ones. */
module Replay {
  import opened Common
  import opened Delta

  datatype Payload =
    | SnapshotPayload(snapshot: Snapshot)
    | DeltaPayload(delta: RealtimeDelta)
    | HeartbeatPayload
    | ResyncPayload(reason: string)

  datatype Envelope = Envelope(sequence: int, serverInstanceId: string, payload: Payload)

  /** What a ring of capacity `maxSize` holds after one more message. */
  function Push(ring: seq<Envelope>, m: Envelope, maxSize: nat): seq<Envelope>
  {
    var all := ring + [m];
    if |all| > maxSize then all[|all| - maxSize..] else all
  }

  function NewerThan(ring: seq<Envelope>, fromSequence: int): seq<Envelope>
  {
    if ring == [] then []
    else
      var init := NewerThan(ring[..|ring| - 1], fromSequence);
      var last := ring[|ring| - 1];
      if last.sequence > fromSequence then init + [last] else init
  }

  /** The reply to a client that last saw `fromSequence`; None asks for a full resync. */
  function MessagesSince(ring: seq<Envelope>, fromSequence: int): Option<seq<Envelope>>
  {
    if ring == [] then None
    else if fromSequence < ring[0].sequence - 1 then None
    else if fromSequence >= ring[|ring| - 1].sequence then Some([])
    else Some(NewerThan(ring, fromSequence))
  }

  class ReplayBuffer {
    const maxSize: nat
    var buffer: seq<Envelope>

    constructor (maxSize: nat)
      ensures this.maxSize == maxSize && buffer == []
    {
      this.maxSize := maxSize;
      buffer := [];
    }

    method Append(m: Envelope)
      modifies this
      ensures buffer == Push(old(buffer), m, maxSize)
    {
      buffer := buffer + [m];
      if |buffer| > maxSize {
        buffer := buffer[|buffer| - maxSize..];
      }
    }

    method GetMessagesSince(fromSequence: int) returns (missing: Option<seq<Envelope>>)
      ensures missing == MessagesSince(buffer, fromSequence)
    {
      if buffer == [] {
        return None;
      }
      var minSeq := buffer[0].sequence;
      var maxSeq := buffer[|buffer| - 1].sequence;
      if fromSequence < minSeq - 1 {
        return None;
      }
      if fromSequence >= maxSeq {
        return Some([]);
      }
      var newer: seq<Envelope> := [];
      for i := 0 to |buffer|
        invariant newer == NewerThan(buffer[..i], fromSequence)
      {
        assert buffer[..i + 1][..i] == buffer[..i];
        if buffer[i].sequence > fromSequence {
          newer := newer + [buffer[i]];
        }
      }
      assert buffer[..|buffer|] == buffer;
      missing := Some(newer);
    }
  }

  // ----------------------------------------------------------------------------
  // The ring against the full transmission history
  // ----------------------------------------------------------------------------

  /** `sent` holds every message ever transmitted; the first has sequence 1. */
  ghost predicate Contiguous(sent: seq<Envelope>)
  {
    forall i :: 0 <= i < |sent| ==> sent[i].sequence == i + 1
  }

  function RingSize(sent: seq<Envelope>, maxSize: nat): nat
  {
    if |sent| <= maxSize then |sent| else maxSize
  }

  /** The last min(maxSize, |sent|) messages. */
  function RingOf(sent: seq<Envelope>, maxSize: nat): (r: seq<Envelope>)
    ensures |r| == RingSize(sent, maxSize)
  {
    sent[|sent| - RingSize(sent, maxSize)..]
  }

  lemma PushKeepsRing(sent: seq<Envelope>, m: Envelope, maxSize: nat)
    ensures Push(RingOf(sent, maxSize), m, maxSize) == RingOf(sent + [m], maxSize)
  {
    var n := RingSize(sent, maxSize);
    var all, ring := sent + [m], RingOf(sent, maxSize);
    assert ring + [m] == all[|sent| - n..];
    if |sent| >= maxSize {
      assert (ring + [m])[1..] == all[|sent| - n + 1..];
    }
  }

  lemma {:induction false} NewerThanContiguous(ring: seq<Envelope>, first: int, fromSequence: int)
    requires forall i :: 0 <= i < |ring| ==> ring[i].sequence == first + i
    requires first - 1 <= fromSequence < first + |ring|
    ensures NewerThan(ring, fromSequence) == ring[fromSequence - first + 1..]
  {
    if ring != [] {
      var init := ring[..|ring| - 1];
      if fromSequence < first + |init| {
        NewerThanContiguous(init, first, fromSequence);
        var k := fromSequence - first + 1;
        assert NewerThan(ring, fromSequence) == init[k..] + [ring[|ring| - 1]] == ring[k..];
      } else {
        NothingNewer(init, fromSequence);
      }
    }
  }

  lemma {:induction false} NothingNewer(ring: seq<Envelope>, fromSequence: int)
    requires forall i :: 0 <= i < |ring| ==> ring[i].sequence <= fromSequence
    ensures NewerThan(ring, fromSequence) == []
  {
    if ring != [] {
      NothingNewer(ring[..|ring| - 1], fromSequence);
    }
  }

  /** Replay is exact: refused just when the ring is empty or the next message was
      evicted, and otherwise precisely the messages after `fromSequence`, in order. */
  lemma ReplayExact(sent: seq<Envelope>, maxSize: nat, fromSequence: int)
    requires Contiguous(sent)
    ensures var reply := MessagesSince(RingOf(sent, maxSize), fromSequence);
            var evicted := |sent| - RingSize(sent, maxSize);
            && (reply.None? <==> RingSize(sent, maxSize) == 0 || fromSequence < evicted)
            && (reply.Some? ==> reply.value == if fromSequence >= |sent| then [] else sent[fromSequence..])
  {
    var ring := RingOf(sent, maxSize);
    var evicted := |sent| - |ring|;
    if ring != [] && evicted <= fromSequence < |sent| {
      NewerThanContiguous(ring, evicted + 1, fromSequence);
      assert ring[fromSequence - evicted..] == sent[fromSequence..];
    }
  }
}
