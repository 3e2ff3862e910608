/** The append-only audit ledger: canonical strings, the hash chain and its verifier. */
module Audit {
  import opened Common

  // ----------------------------------------------------------------------------
  // Decimal text
  // ----------------------------------------------------------------------------

  function Digit(d: nat): char
    requires d < 10
  {
    "0123456789"[d]
  }

  function NatText(n: nat): string
  {
    if n < 10 then [Digit(n)] else NatText(n / 10) + [Digit(n % 10)]
  }

  function IntText(n: int): string
  {
    if n < 0 then "-" + NatText(-n) else NatText(n)
  }

  lemma DigitInjective(a: nat, b: nat)
    requires a < 10 && b < 10 && Digit(a) == Digit(b)
    ensures a == b
  {
    assert forall i, j :: 0 <= i < j < 10 ==> "0123456789"[i] != "0123456789"[j];
  }

  lemma {:induction false} NatTextInjective(a: nat, b: nat)
    requires NatText(a) == NatText(b)
    ensures a == b
  {
    var s, t := NatText(a), NatText(b);
    assert s[|s| - 1] == Digit(a % 10) && t[|t| - 1] == Digit(b % 10);
    DigitInjective(a % 10, b % 10);
    NatTextNonempty(a / 10);
    NatTextNonempty(b / 10);
    if a >= 10 && b >= 10 {
      assert NatText(a / 10) == s[..|s| - 1] && NatText(b / 10) == t[..|t| - 1];
      NatTextInjective(a / 10, b / 10);
    }
  }

  /** Signed numbers too: only negative ones begin with a sign. */
  lemma IntTextInjective(a: int, b: int)
    requires IntText(a) == IntText(b)
    ensures a == b
  {
    hide NatText;
    var m, n: nat := if a < 0 then -a else a, if b < 0 then -b else b;
    NatTextDigits(m);
    NatTextDigits(n);
    NatTextNonempty(m);
    NatTextNonempty(n);
    assert (a < 0) == (b < 0) by {
      assert a < 0 <==> IntText(a)[0] == '-';
      assert b < 0 <==> IntText(b)[0] == '-';
    }
    assert NatText(m) == if a < 0 then IntText(a)[1..] else IntText(a);
    assert NatText(n) == if b < 0 then IntText(b)[1..] else IntText(b);
    NatTextInjective(m, n);
  }

  lemma NatTextNonempty(n: nat)
    ensures NatText(n) != []
  {
  }

  lemma {:induction false} NatTextDigits(n: nat)
    ensures forall i :: 0 <= i < |NatText(n)| ==> '0' <= NatText(n)[i] <= '9'
  {
    if n >= 10 {
      NatTextDigits(n / 10);
    }
  }

  // ----------------------------------------------------------------------------
  // Fields joined by bars
  // ----------------------------------------------------------------------------

  predicate BarFree(s: string)
  {
    '|' !in s
  }

  function Join(fs: seq<string>): string
    requires fs != []
  {
    if |fs| == 1 then fs[0] else fs[0] + "|" + Join(fs[1..])
  }

  lemma {:induction false} JoinLast(fs: seq<string>)
    requires |fs| >= 2
    ensures Join(fs) == Join(fs[..|fs| - 1]) + "|" + fs[|fs| - 1]
  {
    var n := |fs|;
    if n == 2 {
      assert fs[1..] == [fs[1]] && fs[..1] == [fs[0]];
    } else {
      JoinLast(fs[1..]);
      assert fs[1..][..n - 2] == fs[..n - 1][1..];
      assert fs[1..][n - 2] == fs[n - 1];
    }
  }

  /** The text before the first bar is determined. */
  lemma SplitFirst(a: string, r: string, b: string, q: string)
    requires BarFree(a) && BarFree(b) && a + "|" + r == b + "|" + q
    ensures a == b && r == q
  {
    var x, y := a + "|" + r, b + "|" + q;
    assert x[|a|] == '|' && y[|b|] == '|';
    assert forall i :: 0 <= i < |a| ==> x[i] == a[i] != '|';
    assert forall i :: 0 <= i < |b| ==> y[i] == b[i] != '|';
    assert a == x[..|a|] && b == y[..|b|];
    assert r == x[|a| + 1..] && q == y[|b| + 1..];
  }

  /** So is the text after the last one. */
  lemma SplitLast(p: string, a: string, q: string, b: string)
    requires BarFree(a) && BarFree(b) && p + "|" + a == q + "|" + b
    ensures p == q && a == b
  {
    var x, y := p + "|" + a, q + "|" + b;
    assert x[|p|] == '|' && y[|q|] == '|';
    assert forall i :: |p| < i < |x| ==> x[i] == a[i - |p| - 1] != '|';
    assert forall i :: |q| < i < |y| ==> y[i] == b[i - |q| - 1] != '|';
    assert p == x[..|p|] && q == y[..|q|];
    assert a == x[|p| + 1..] && b == y[|q| + 1..];
  }

  lemma {:induction false} JoinInjective(fs: seq<string>, gs: seq<string>)
    requires |fs| == |gs| >= 1 && Join(fs) == Join(gs)
    requires forall i :: 0 <= i < |fs| ==> BarFree(fs[i]) && BarFree(gs[i])
    ensures fs == gs
  {
    if |fs| > 1 {
      SplitFirst(fs[0], Join(fs[1..]), gs[0], Join(gs[1..]));
      JoinInjective(fs[1..], gs[1..]);
      assert fs == [fs[0]] + fs[1..] && gs == [gs[0]] + gs[1..];
    } else {
      assert fs == [fs[0]] && gs == [gs[0]];
    }
  }

  // ----------------------------------------------------------------------------
  // Ledger rows
  // ----------------------------------------------------------------------------

  /** Columns that are stored beside the hashed ones but never hashed. */
  datatype Unhashed = Unhashed(
    actorType: string, actorLabel: string, resourceType: string, resourceLabel: string,
    correlationId: string, revision: int)

  datatype Entry = Entry(
    eventId: string, timestamp: string, actorId: string, action: string, resourceId: string,
    outcome: string, reason: Option<string>, intentId: Option<string>, payloadHash: Option<string>,
    unhashed: Unhashed)

  datatype Row = Row(sequence: int, entry: Entry, previousHash: string, recordHash: string)

  type Ledger = seq<Row>

  /** A digest function, such as SHA-256 rendered in hexadecimal. */
  type Digest = string -> string

  function OrEmpty(o: Option<string>): string
  {
    if o.Some? then o.value else ""
  }

  /** The eleven fields in hashing order. */
  function Fields(sequence: int, e: Entry, previousHash: string): seq<string>
  {
    [IntText(sequence), e.eventId, e.timestamp, e.actorId, e.action, e.resourceId, e.outcome,
     OrEmpty(e.reason), OrEmpty(e.intentId), OrEmpty(e.payloadHash), previousHash]
  }

  function CanonicalOf(sequence: int, e: Entry, previousHash: string): string
  {
    Join(Fields(sequence, e, previousHash))
  }

  function Canonical(r: Row): string
  {
    CanonicalOf(r.sequence, r.entry, r.previousHash)
  }

  function Zeros(n: nat): (r: string)
    ensures |r| == n && forall i :: 0 <= i < n ==> r[i] == '0'
  {
    if n == 0 then "" else Zeros(n - 1) + "0"
  }

  const GENESIS_PREVIOUS_HASH := Zeros(64)

  const GENESIS_ENTRY := Entry(
    "aud-000000000000-genesis", "2026-01-01T00:00:00Z", "system:genesis", "AUDIT_CHAIN_GENESIS",
    "sagara:mission-control", "INITIALIZED", Some("Genesis marker for tamper-evident audit chain"),
    None, None,
    Unhashed("SYSTEM", "Mission Control Genesis", "SYSTEM", "Sagara Mission Control", "corr-genesis-00000000", 1))

  /** Adds an entry after the row with the highest sequence. */
  function Append(rows: Ledger, e: Entry, h: Digest): Ledger
  {
    var next := if rows == [] then 0 else rows[|rows| - 1].sequence + 1;
    var previous := if rows == [] then GENESIS_PREVIOUS_HASH else rows[|rows| - 1].recordHash;
    rows + [Row(next, e, previous, h(CanonicalOf(next, e, previous)))]
  }

  /** The writing side: reads the last row and chains the new one to it. */
  method AppendRecord(rows: Ledger, e: Entry, h: Digest) returns (grown: Ledger)
    ensures grown == Append(rows, e, h)
  {
    var nextSeq, prevHash := 0, GENESIS_PREVIOUS_HASH;
    if rows != [] {
      var last := rows[|rows| - 1];
      nextSeq, prevHash := last.sequence + 1, last.recordHash;
    }
    var hash := h(CanonicalOf(nextSeq, e, prevHash));
    grown := rows + [Row(nextSeq, e, prevHash, hash)];
  }

  function Genesis(h: Digest): Ledger
  {
    Append([], GENESIS_ENTRY, h)
  }

  // ----------------------------------------------------------------------------
  // Verification
  // ----------------------------------------------------------------------------

  function ExpectedPrevious(rows: Ledger, i: nat): string
    requires i <= |rows|
  {
    if i == 0 then GENESIS_PREVIOUS_HASH else rows[i - 1].recordHash
  }

  predicate RowLinked(rows: Ledger, i: nat, h: Digest)
    requires i < |rows|
  {
    && rows[i].sequence == i
    && rows[i].previousHash == ExpectedPrevious(rows, i)
    && rows[i].recordHash == h(Canonical(rows[i]))
  }

  ghost predicate ValidChain(rows: Ledger, h: Digest)
  {
    rows != [] && forall i :: 0 <= i < |rows| ==> RowLinked(rows, i, h)
  }

  datatype Verdict = Intact | EmptyLedger | SequenceGap(at: nat) | BrokenLink(at: nat) | Tampered(at: nat)

  /** Walks the ledger in sequence order and reports the first defect, in the order
      gap, link, hash. */
  method VerifyChain(rows: Ledger, h: Digest) returns (v: Verdict)
    ensures v.Intact? <==> ValidChain(rows, h)
    ensures v.EmptyLedger? <==> rows == []
    ensures v.SequenceGap? || v.BrokenLink? || v.Tampered? ==>
      v.at < |rows| && forall i :: 0 <= i < v.at ==> RowLinked(rows, i, h)
    ensures v.SequenceGap? ==> rows[v.at].sequence != v.at
    ensures v.BrokenLink? ==>
      rows[v.at].sequence == v.at && rows[v.at].previousHash != ExpectedPrevious(rows, v.at)
    ensures v.Tampered? ==>
      && rows[v.at].sequence == v.at && rows[v.at].previousHash == ExpectedPrevious(rows, v.at)
      && rows[v.at].recordHash != h(Canonical(rows[v.at]))
  {
    if rows == [] {
      return EmptyLedger;
    }
    var prevHash := GENESIS_PREVIOUS_HASH;
    var expectedSeq := 0;
    for i := 0 to |rows|
      invariant expectedSeq == i && prevHash == ExpectedPrevious(rows, i)
      invariant forall j :: 0 <= j < i ==> RowLinked(rows, j, h)
    {
      var row := rows[i];
      assert RowLinked(rows, i, h) <==>
             row.sequence == expectedSeq && row.previousHash == prevHash && h(Canonical(row)) == row.recordHash;
      if row.sequence != expectedSeq {
        return SequenceGap(i);
      }
      if row.previousHash != prevHash {
        return BrokenLink(i);
      }
      if h(Canonical(row)) != row.recordHash {
        return Tampered(i);
      }
      prevHash := row.recordHash;
      expectedSeq := expectedSeq + 1;
    }
    v := Intact;
  }

  // ----------------------------------------------------------------------------
  // What a verified ledger commits to
  // ----------------------------------------------------------------------------

  lemma GenesisValid(h: Digest)
    ensures ValidChain(Genesis(h), h) && |Genesis(h)| == 1
  {
  }

  /** Appending keeps a ledger valid, and appending anything to a broken one cannot repair it. */
  lemma AppendValid(rows: Ledger, e: Entry, h: Digest)
    requires rows != []
    ensures ValidChain(Append(rows, e, h), h) <==> ValidChain(rows, h)
  {
    var rows' := Append(rows, e, h);
    assert rows'[..|rows|] == rows;
    if ValidChain(rows', h) {
      PrefixValid(rows', |rows|, h);
    } else if ValidChain(rows, h) {
      forall i | 0 <= i < |rows'| ensures RowLinked(rows', i, h) {
        if i < |rows| {
          assert RowLinked(rows, i, h);
        } else {
          assert RowLinked(rows, |rows| - 1, h);
        }
      }
    }
  }

  lemma PrefixValid(rows: Ledger, n: nat, h: Digest)
    requires ValidChain(rows, h) && 0 < n <= |rows|
    ensures ValidChain(rows[..n], h)
  {
    forall i | 0 <= i < n ensures RowLinked(rows[..n], i, h) {
      assert RowLinked(rows, i, h);
    }
  }

  predicate IsHexDigit(c: char)
  {
    '0' <= c <= '9' || 'a' <= c <= 'f'
  }

  predicate IsHex64(s: string)
  {
    |s| == 64 && forall i :: 0 <= i < |s| ==> IsHexDigit(s[i])
  }

  ghost predicate YieldsHex(h: Digest)
  {
    forall s :: IsHex64(h(s))
  }

  lemma HexIsBarFree(s: string)
    requires IsHex64(s)
    ensures BarFree(s)
  {
  }

  lemma IntTextBarFree(n: int)
    ensures BarFree(IntText(n))
  {
    NatTextDigits(if n < 0 then -n else n);
  }

  /** The canonical string determines the sequence and, when hashes carry no bar, the
      previous hash, whatever the fields in between contain. */
  lemma CanonicalEnds(r: Row, q: Row)
    requires Canonical(r) == Canonical(q) && BarFree(r.previousHash) && BarFree(q.previousHash)
    ensures r.sequence == q.sequence && r.previousHash == q.previousHash
  {
    var f, g := Fields(r.sequence, r.entry, r.previousHash), Fields(q.sequence, q.entry, q.previousHash);
    IntTextBarFree(r.sequence);
    IntTextBarFree(q.sequence);
    SplitFirst(f[0], Join(f[1..]), g[0], Join(g[1..]));
    JoinLast(f);
    JoinLast(g);
    SplitLast(Join(f[..10]), f[10], Join(g[..10]), g[10]);
    IntTextInjective(r.sequence, q.sequence);
  }

  ghost predicate SameHistory(a: Ledger, b: Ledger)
  {
    && |a| == |b|
    && forall i :: 0 <= i < |a| ==>
         && Canonical(a[i]) == Canonical(b[i])
         && a[i].sequence == b[i].sequence
         && a[i].previousHash == b[i].previousHash
         && a[i].recordHash == b[i].recordHash
  }

  /** Two records of the two ledgers that differ yet have the same digest. */
  ghost predicate Collide(a: Ledger, b: Ledger, h: Digest, i: nat, j: nat)
  {
    && i < |a| && j < |b|
    && Canonical(a[i]) != Canonical(b[j]) && h(Canonical(a[i])) == h(Canonical(b[j]))
  }

  lemma PreviousBarFree(rows: Ledger, i: nat, h: Digest)
    requires ValidChain(rows, h) && YieldsHex(h) && i < |rows|
    ensures BarFree(rows[i].previousHash)
  {
    hide Canonical;
    assert RowLinked(rows, i, h);
    if i > 0 {
      assert RowLinked(rows, i - 1, h);
      HexIsBarFree(rows[i - 1].recordHash);
    }
  }

  lemma HeadsAgree(a: Ledger, b: Ledger, h: Digest)
    requires YieldsHex(h) && ValidChain(a, h) && ValidChain(b, h)
    requires Canonical(a[|a| - 1]) == Canonical(b[|b| - 1])
    ensures |a| == |b| && a[|a| - 1].previousHash == b[|b| - 1].previousHash
  {
    var m, n := |a| - 1, |b| - 1;
    assert RowLinked(a, m, h) && RowLinked(b, n, h);
    PreviousBarFree(a, m, h);
    PreviousBarFree(b, n, h);
    CanonicalEnds(a[m], b[n]);
  }

  /** Head commitment: two valid ledgers with the same final record hash hold the same
      history, or else exhibit a collision of the digest. */
  lemma {:induction false} HeadCommitment(a: Ledger, b: Ledger, h: Digest)
    requires YieldsHex(h) && ValidChain(a, h) && ValidChain(b, h)
    requires a[|a| - 1].recordHash == b[|b| - 1].recordHash
    ensures SameHistory(a, b) || exists i: nat, j: nat :: Collide(a, b, h, i, j)
  {
    hide Canonical, YieldsHex;
    var m, n := |a| - 1, |b| - 1;
    assert RowLinked(a, m, h) && RowLinked(b, n, h);
    if Canonical(a[m]) != Canonical(b[n]) {
      assert Collide(a, b, h, m, n);
    } else {
      HeadsAgree(a, b, h);
      if m > 0 {
        PrefixValid(a, m, h);
        PrefixValid(b, m, h);
        assert a[..m][m - 1] == a[m - 1] && b[..m][m - 1] == b[m - 1];
        HeadCommitment(a[..m], b[..m], h);
        if i: nat, j: nat :| Collide(a[..m], b[..m], h, i, j) {
          assert Collide(a, b, h, i, j);
        } else {
          assert forall i :: 0 <= i < m ==> a[..m][i] == a[i] && b[..m][i] == b[i];
        }
      }
    }
  }

  /** Rows whose text fields carry no bar are determined by their canonical string, up
      to the merging of an absent value with an empty one and to the unhashed columns. */
  lemma CanonicalDeterminesFields(r: Row, q: Row)
    requires Canonical(r) == Canonical(q)
    requires var f, g := Fields(r.sequence, r.entry, r.previousHash), Fields(q.sequence, q.entry, q.previousHash);
             forall i :: 1 <= i < 11 ==> BarFree(f[i]) && BarFree(g[i])
    ensures Fields(r.sequence, r.entry, r.previousHash) == Fields(q.sequence, q.entry, q.previousHash)
  {
    IntTextBarFree(r.sequence);
    IntTextBarFree(q.sequence);
    JoinInjective(Fields(r.sequence, r.entry, r.previousHash), Fields(q.sequence, q.entry, q.previousHash));
  }

  /** Without that restriction different records can share a canonical string: a bar can
      move from one field to its neighbour, and None reads as the empty string. */
  lemma BarsAreAmbiguous(r: Row)
    ensures Canonical(r.(entry := r.entry.(eventId := "a|b", timestamp := "c")))
         == Canonical(r.(entry := r.entry.(eventId := "a", timestamp := "b|c")))
    ensures Canonical(r.(entry := r.entry.(reason := None))) == Canonical(r.(entry := r.entry.(reason := Some(""))))
  {
    var x := Fields(r.sequence, r.entry.(eventId := "a|b", timestamp := "c"), r.previousHash);
    var y := Fields(r.sequence, r.entry.(eventId := "a", timestamp := "b|c"), r.previousHash);
    assert x[1..][1..][1..] == y[1..][1..][1..];
    var rest := Join(x[3..]);
    assert x[3..] == x[1..][1..][1..];
    assert Join(x[1..]) == "a|b" + "|" + ("c" + "|" + rest);
    assert Join(y[1..]) == "a" + "|" + ("b|c" + "|" + rest);
    assert "a|b" + "|" + ("c" + "|" + rest) == "a" + "|" + ("b|c" + "|" + rest);
    assert Fields(r.sequence, r.entry.(reason := None), r.previousHash)
        == Fields(r.sequence, r.entry.(reason := Some("")), r.previousHash);
  }
}
