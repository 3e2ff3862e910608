/** Walking a session's ancestry with protection against cycles. */
module Lineage {
  import opened Common
  import opened Governance

  /** Known sessions, each with the parent it names, if it names one. */
  type Sessions = map<string, Option<string>>

  /** The parent as the walk sees it: known session, non-blank name, surrounding space ignored. */
  function Parent(sessions: Sessions, id: string): Option<string>
  {
    if id in sessions && sessions[id].Some? && Strip(sessions[id].value) != ""
    then Some(Strip(sessions[id].value)) else None
  }

  /** The ancestor `n` generations up, while there is one. */
  function Ancestor(sessions: Sessions, id: string, n: nat): Option<string>
  {
    if n == 0 then Some(id)
    else
      var a := Ancestor(sessions, id, n - 1);
      if a.Some? then Parent(sessions, a.value) else None
  }

  lemma AncestorStart(sessions: Sessions, id: string)
    ensures Ancestor(sessions, id, 0) == Some(id)
  {
  }

  lemma AncestorNext(sessions: Sessions, id: string, n: nat, a: string)
    requires Ancestor(sessions, id, n) == Some(a)
    ensures Ancestor(sessions, id, n + 1) == Parent(sessions, a)
  {
  }

  /** The first generations of the ancestry, without repetition. */
  predicate IsStretch(sessions: Sessions, id: string, lineage: seq<string>)
  {
    && (forall i :: 0 <= i < |lineage| ==> Ancestor(sessions, id, i) == Some(lineage[i]))
    && (forall i, j :: 0 <= i < j < |lineage| ==> lineage[i] != lineage[j])
  }

  lemma LongerStretch(sessions: Sessions, id: string, lineage: seq<string>, parent: string)
    requires IsStretch(sessions, id, lineage) && Ancestor(sessions, id, |lineage|) == Some(parent) && parent !in lineage
    ensures IsStretch(sessions, id, lineage + [parent])
  {
    hide Ancestor;
  }

  /** A duplicate-free stretch of the ancestry that stops at a root, before the first
      repetition, or at the depth limit. */
  predicate IsLineage(sessions: Sessions, id: string, maxDepth: int, lineage: seq<string>, cycle: bool)
  {
    var limit := if maxDepth < 0 then 0 else maxDepth;
    && 1 <= |lineage| <= limit + 1 && IsStretch(sessions, id, lineage)
    && var next := Ancestor(sessions, id, |lineage|);
       if cycle then |lineage| <= limit && next.Some? && next.value in lineage
       else next.None? || |lineage| == limit + 1
  }

  method ExtractLineage(sessions: Sessions, id: string, maxDepth: int) returns (lineage: seq<string>, cycle: bool)
    ensures IsLineage(sessions, id, maxDepth, lineage, cycle)
  {
    assert Strip("") == "";
    AncestorStart(sessions, id);
    assert IsStretch(sessions, id, [id]);
    hide Strip, Ancestor, IsStretch;
    lineage := [id];
    var visited := {id};
    var curr := id;
    var depth := 0;
    while depth < maxDepth
      invariant 0 <= depth <= (if maxDepth < 0 then 0 else maxDepth) && |lineage| == depth + 1
      invariant curr == lineage[depth] && Ancestor(sessions, id, depth) == Some(curr)
      invariant IsStretch(sessions, id, lineage)
      invariant forall x :: x in visited <==> x in lineage
    {
      AncestorNext(sessions, id, depth, curr);
      if curr !in sessions || sessions[curr].None? || sessions[curr].value == "" {
        return lineage, false;
      }
      var parent := Strip(sessions[curr].value);
      if parent == "" {
        return lineage, false;
      }
      if parent in visited {
        return lineage, true;
      }
      LongerStretch(sessions, id, lineage, parent);
      lineage := lineage + [parent];
      visited := visited + {parent};
      curr := parent;
      depth := depth + 1;
    }
    cycle := false;
  }

  // ----------------------------------------------------------------------------
  // What the walk finds
  // ----------------------------------------------------------------------------

  /** The result is determined. */
  lemma LineageUnique(sessions: Sessions, id: string, maxDepth: int, a: seq<string>, x: bool, b: seq<string>, y: bool)
    requires IsLineage(sessions, id, maxDepth, a, x) && IsLineage(sessions, id, maxDepth, b, y)
    ensures a == b && x == y
  {
    LineageNotShorter(sessions, id, maxDepth, a, x, b, y);
    LineageNotShorter(sessions, id, maxDepth, b, y, a, x);
    assert forall i :: 0 <= i < |a| ==> Some(a[i]) == Ancestor(sessions, id, i) == Some(b[i]);
  }

  lemma LineageNotShorter(sessions: Sessions, id: string, maxDepth: int, a: seq<string>, x: bool, b: seq<string>,
                          y: bool)
    requires IsLineage(sessions, id, maxDepth, a, x) && IsLineage(sessions, id, maxDepth, b, y)
    ensures |a| >= |b|
  {
    hide Ancestor;
    assert forall i :: 0 <= i < |a| && i < |b| ==> Some(a[i]) == Ancestor(sessions, id, i) == Some(b[i]);
  }

  ghost predicate NeverEnds(sessions: Sessions, id: string)
  {
    forall n: nat :: Ancestor(sessions, id, n).Some?
  }

  lemma {:induction false} AncestorShift(sessions: Sessions, id: string, i: nat, j: nat, n: nat)
    requires Ancestor(sessions, id, i) == Ancestor(sessions, id, j)
    ensures Ancestor(sessions, id, i + n) == Ancestor(sessions, id, j + n)
  {
    if n > 0 {
      AncestorShift(sessions, id, i, j, n - 1);
    }
  }

  lemma {:induction false} EarlierAncestor(sessions: Sessions, id: string, m: nat, n: nat)
    requires m <= n && Ancestor(sessions, id, n).Some?
    ensures Ancestor(sessions, id, m).Some?
    decreases n - m
  {
    if m < n {
      EarlierAncestor(sessions, id, m, n - 1);
    }
  }

  /** A repetition means the ancestry never ends. */
  lemma {:induction false} RepetitionNeverEnds(sessions: Sessions, id: string, i: nat, j: nat, n: nat)
    requires i < j && Ancestor(sessions, id, j).Some? && Ancestor(sessions, id, i) == Ancestor(sessions, id, j)
    ensures Ancestor(sessions, id, n).Some?
    decreases n
  {
    if n <= j {
      EarlierAncestor(sessions, id, n, j);
    } else {
      RepetitionNeverEnds(sessions, id, i, j, n - (j - i));
      AncestorShift(sessions, id, i, j, n - j);
    }
  }

  function Members(s: seq<string>): set<string>
  {
    set x | x in s
  }

  lemma {:induction false} DistinctSize(s: seq<string>)
    requires forall i, j :: 0 <= i < j < |s| ==> s[i] != s[j]
    ensures |Members(s)| == |s|
  {
    if s != [] {
      var n := |s| - 1;
      DistinctSize(s[..n]);
      assert Members(s) == Members(s[..n]) + {s[n]};
      assert s[n] !in s[..n];
    }
  }

  /** An ancestry longer than the number of known sessions cannot be duplicate-free. */
  lemma LineageFitsSessions(sessions: Sessions, id: string, lineage: seq<string>)
    requires IsStretch(sessions, id, lineage) && Ancestor(sessions, id, |lineage|).Some?
    ensures |lineage| <= |sessions|
  {
    forall i | 0 <= i < |lineage| ensures lineage[i] in sessions {
      EarlierAncestor(sessions, id, i + 1, |lineage|);
      assert Ancestor(sessions, id, i + 1) == Parent(sessions, lineage[i]);
    }
    DistinctSize(lineage);
    assert Members(lineage) <= sessions.Keys;
    SubsetSize(Members(lineage), sessions.Keys);
    assert |sessions.Keys| == |sessions|;
  }

  /** A reported cycle is real, at any depth limit: the ancestry never ends. */
  lemma ReportedCycleIsReal(sessions: Sessions, id: string, maxDepth: int, lineage: seq<string>, cycle: bool)
    requires IsLineage(sessions, id, maxDepth, lineage, cycle) && cycle
    ensures NeverEnds(sessions, id)
  {
    var n := |lineage|;
    var i :| 0 <= i < n && lineage[i] == Ancestor(sessions, id, n).value;
    forall k: nat ensures Ancestor(sessions, id, k).Some? {
      RepetitionNeverEnds(sessions, id, i, n, k);
    }
  }

  /** With a depth limit of at least the number of known sessions, a cycle is reported
      exactly when the ancestry never ends; otherwise the walk reaches the root. */
  lemma CycleReportedIff(sessions: Sessions, id: string, maxDepth: int, lineage: seq<string>, cycle: bool)
    requires IsLineage(sessions, id, maxDepth, lineage, cycle) && maxDepth >= |sessions|
    ensures cycle <==> NeverEnds(sessions, id)
    ensures !cycle ==> Ancestor(sessions, id, |lineage|).None?
  {
    if cycle {
      ReportedCycleIsReal(sessions, id, maxDepth, lineage, cycle);
    } else if Ancestor(sessions, id, |lineage|).Some? {
      LineageFitsSessions(sessions, id, lineage);
    }
  }

  /** At every depth limit: a cycle is reported exactly when some ancestor repeats an earlier
      one within that many generations. */
  lemma CycleWithinLimitIff(sessions: Sessions, id: string, maxDepth: int, lineage: seq<string>, cycle: bool)
    requires IsLineage(sessions, id, maxDepth, lineage, cycle)
    ensures cycle <==> exists i: nat, j: nat :: i < j <= maxDepth && Repeats(sessions, id, i, j)
  {
    hide Ancestor;
    var n := |lineage|;
    if cycle {
      var i :| 0 <= i < n && lineage[i] == Ancestor(sessions, id, n).value;
      assert Repeats(sessions, id, i, n);
    } else {
      forall i: nat, j: nat | i < j <= maxDepth ensures !Repeats(sessions, id, i, j) {
        if j >= n && Ancestor(sessions, id, j).Some? {
          EarlierAncestor(sessions, id, n, j);
        }
      }
    }
  }

  predicate Repeats(sessions: Sessions, id: string, i: nat, j: nat)
  {
    Ancestor(sessions, id, j).Some? && Ancestor(sessions, id, i) == Ancestor(sessions, id, j)
  }

  // ----------------------------------------------------------------------------
  // The limit is tight
  // ----------------------------------------------------------------------------

  function Name(k: nat): (r: string)
    ensures |r| == k + 1 && forall i :: 0 <= i < |r| ==> r[i] == 'x'
  {
    if k == 0 then "x" else Name(k - 1) + "x"
  }

  /** The first `k` of a ring of `n` sessions, each naming the next one as its parent. */
  function Ring(n: nat, k: nat): Sessions
    requires k <= n
  {
    if k == 0 then map[] else Ring(n, k - 1)[Name(k - 1) := Some(Name(if k == n then 0 else k))]
  }

  lemma {:induction false} RingNames(n: nat, k: nat)
    requires k <= n
    ensures |Ring(n, k)| == k && forall x :: x in Ring(n, k) ==> |x| <= k
  {
    hide Name;
    if k > 0 {
      RingNames(n, k - 1);
      assert Ring(n, k).Keys == Ring(n, k - 1).Keys + {Name(k - 1)};
      assert |Ring(n, k)| == |Ring(n, k).Keys| && |Ring(n, k - 1)| == |Ring(n, k - 1).Keys|;
    }
  }

  lemma {:induction false} RingParent(n: nat, k: nat, j: nat)
    requires j < k <= n
    ensures Name(j) in Ring(n, k) && Ring(n, k)[Name(j)] == Some(Name(if j + 1 == n then 0 else j + 1))
  {
    hide Name;
    if j < k - 1 {
      RingParent(n, k - 1, j);
      assert |Name(j)| != |Name(k - 1)|;
    }
  }

  lemma StripName(k: nat)
    ensures Strip(Name(k)) == Name(k)
  {
    hide Name;
    assert Name(k)[0] == 'x' && Name(k)[|Name(k)| - 1] == 'x';
  }

  lemma {:induction false} RingAncestor(n: nat, k: nat)
    requires 0 < n && k <= n
    ensures Ancestor(Ring(n, n), Name(0), k) == Some(Name(if k == n then 0 else k))
  {
    hide Ring, Name, Strip;
    if k > 0 {
      RingAncestor(n, k - 1);
      RingParent(n, n, k - 1);
      StripName(if k == n then 0 else k);
    }
  }

  /** Why the limit must be that large: for every number of sessions there is an ancestry
      that never ends and whose cycle a limit one smaller does not find. */
  lemma SmallerLimitMissesCycle(n: nat, lineage: seq<string>, cycle: bool)
    requires n > 0 && IsLineage(Ring(n, n), Name(0), n - 1, lineage, cycle)
    ensures |Ring(n, n)| == n && NeverEnds(Ring(n, n), Name(0)) && !cycle
  {
    hide Ring, Name, Ancestor;
    var ring, m := Ring(n, n), |lineage|;
    RingNames(n, n);
    AncestorStart(ring, Name(0));
    RingAncestor(n, n);
    forall k: nat ensures Ancestor(ring, Name(0), k).Some? {
      RepetitionNeverEnds(ring, Name(0), 0, n, k);
    }
    RingAncestor(n, m);
    forall i | 0 <= i < m ensures m < n ==> lineage[i] != Name(m) {
      RingAncestor(n, i);
      assert |Name(i)| != |Name(m)|;
    }
  }
}
