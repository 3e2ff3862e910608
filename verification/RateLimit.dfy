/** Concurrency and rate limits on execution attempts, over every history of admissions
    and state changes. */
module RateLimit {
  import opened Common
  import opened ExecutionPolicy

  datatype AttemptState =
    | Prepared | Claimed | Submitting | Acknowledged | FailedPreSubmission | OutcomeUnknown | Reconciled

  /** `stray` notes that the attempt once became active or successful again after the
      limits had stopped counting it. */
  datatype Attempt = Attempt(profileId: string, createdAt: int, state: AttemptState, stray: bool)

  const ACTIVE_SECONDS := 600
  const HOUR := 3600

  predicate Active(a: Attempt, now: int)
  {
    a.state in {Claimed, Submitting} && a.createdAt >= now - ACTIVE_SECONDS
  }

  predicate Successful(a: Attempt)
  {
    a.state in {Acknowledged, Reconciled}
  }

  function ActiveAttempts(s: seq<Attempt>, now: int): set<nat>
  {
    set i: nat | i < |s| && Active(s[i], now)
  }

  function ActiveOf(s: seq<Attempt>, profileId: string, now: int): set<nat>
  {
    set i: nat | i < |s| && s[i].profileId == profileId && Active(s[i], now)
  }

  function SuccessesSince(s: seq<Attempt>, profileId: string, since: int): set<nat>
  {
    set i: nat | i < |s| && s[i].profileId == profileId && Successful(s[i]) && s[i].createdAt >= since
  }

  datatype LimitReason = UnknownProfile | GlobalConcurrency | ProfileConcurrency | HourlyRate

  /** A profile in the policy, with room under all three limits. */
  predicate HasRoom(p: Policy, s: seq<Attempt>, profileId: string, now: int)
  {
    && profileId in p.profiles
    && var rule := p.profiles[profileId];
       && |ActiveAttempts(s, now)| < p.maxGlobalConcurrency
       && |ActiveOf(s, profileId, now)| < rule.maxConcurrency
       && (rule.maxExecutionsPerHour > 0 ==> |SuccessesSince(s, profileId, now - HOUR)| < rule.maxExecutionsPerHour)
  }

  method CheckLimits(p: Policy, s: seq<Attempt>, profileId: string, now: int) returns (r: seq<LimitReason>)
    ensures r == [] <==> HasRoom(p, s, profileId, now)
    ensures UnknownProfile in r <==> profileId !in p.profiles
    ensures GlobalConcurrency in r <==> profileId in p.profiles && |ActiveAttempts(s, now)| >= p.maxGlobalConcurrency
    ensures ProfileConcurrency in r <==>
      profileId in p.profiles && |ActiveOf(s, profileId, now)| >= p.profiles[profileId].maxConcurrency
    ensures HourlyRate in r <==>
      profileId in p.profiles && p.profiles[profileId].maxExecutionsPerHour > 0
      && |SuccessesSince(s, profileId, now - HOUR)| >= p.profiles[profileId].maxExecutionsPerHour
  {
    hide ActiveAttempts, ActiveOf, SuccessesSince;
    r := [];
    if profileId !in p.profiles {
      return [UnknownProfile];
    }
    var rule := p.profiles[profileId];
    if |ActiveAttempts(s, now)| >= p.maxGlobalConcurrency {
      r := r + [GlobalConcurrency];
    }
    if |ActiveOf(s, profileId, now)| >= rule.maxConcurrency {
      r := r + [ProfileConcurrency];
    }
    if rule.maxExecutionsPerHour > 0 && |SuccessesSince(s, profileId, now - HOUR)| >= rule.maxExecutionsPerHour {
      r := r + [HourlyRate];
    }
  }

  // ----------------------------------------------------------------------------
  // Histories
  // ----------------------------------------------------------------------------

  datatype World = World(attempts: seq<Attempt>, now: int)

  /** `Write` is any state change of any attempt: submission, acknowledgement, failure,
      loss of the outcome, reconciliation. */
  datatype Move = Tick(seconds: nat) | Admit(profileId: string) | Write(i: nat, state: AttemptState)

  /** What the limits count, or will count if it succeeds in time. */
  predicate OnTrack(a: Attempt, now: int)
  {
    Successful(a) || Active(a, now)
  }

  function Written(a: Attempt, state: AttemptState, now: int): Attempt
  {
    var a' := a.(state := state);
    if !OnTrack(a, now) && OnTrack(a', now) then a'.(stray := true) else a'
  }

  function Do(p: Policy, w: World, m: Move): World
  {
    match m
    case Tick(seconds) => w.(now := w.now + seconds)
    case Admit(profileId) =>
      if HasRoom(p, w.attempts, profileId, w.now)
      then w.(attempts := w.attempts + [Attempt(profileId, w.now, Submitting, false)]) else w
    case Write(i, state) =>
      if i < |w.attempts| then w.(attempts := w.attempts[i := Written(w.attempts[i], state, w.now)]) else w
  }

  function Run(p: Policy, w: World, moves: seq<Move>): World
  {
    if moves == [] then w else Do(p, Run(p, w, moves[..|moves| - 1]), moves[|moves| - 1])
  }

  // ----------------------------------------------------------------------------
  // The invariant
  // ----------------------------------------------------------------------------

  predicate Regular(a: Attempt, now: int)
  {
    !a.stray && OnTrack(a, now)
  }

  /** Earlier attempts of the same profile, at most an hour older, that the limits track. */
  function Rivals(s: seq<Attempt>, i: nat, now: int): set<nat>
    requires i < |s|
  {
    set j: nat | j < i && s[j].profileId == s[i].profileId && Regular(s[j], now)
                 && s[j].createdAt >= s[i].createdAt - HOUR
  }

  /** How many attempts of a profile can be active side by side. */
  function Width(p: Policy, profileId: string): int
    requires profileId in p.profiles
  {
    var c := p.profiles[profileId].maxConcurrency;
    if c < p.maxGlobalConcurrency then c else p.maxGlobalConcurrency
  }

  ghost predicate AttemptOk(p: Policy, s: seq<Attempt>, i: nat, now: int)
    requires i < |s|
  {
    && s[i].profileId in p.profiles && Width(p, s[i].profileId) >= 1
    && var rule := p.profiles[s[i].profileId];
       rule.maxExecutionsPerHour > 0 ==> |Rivals(s, i, now)| <= rule.maxExecutionsPerHour + Width(p, s[i].profileId) - 2
  }

  ghost predicate Inv(p: Policy, w: World)
  {
    forall i: nat :: i < |w.attempts| ==> AttemptOk(p, w.attempts, i, w.now)
  }

  lemma {:induction false} UnionSize(a: set<nat>, b: set<nat>)
    ensures |a + b| <= |a| + |b|
  {
    assert a + b == a + (b - a);
    SubsetSize(b - a, b);
  }

  /** At admission the tracked rivals are successes within the hour or active attempts. */
  lemma AdmittedOk(p: Policy, w: World, profileId: string)
    requires HasRoom(p, w.attempts, profileId, w.now)
    ensures var s := w.attempts + [Attempt(profileId, w.now, Submitting, false)];
            AttemptOk(p, s, |w.attempts|, w.now)
  {
    var n := |w.attempts|;
    var s := w.attempts + [Attempt(profileId, w.now, Submitting, false)];
    var successes := SuccessesSince(w.attempts, profileId, w.now - HOUR);
    var active := ActiveOf(w.attempts, profileId, w.now);
    assert forall j: nat :: j < n ==> s[j] == w.attempts[j];
    assert Rivals(s, n, w.now) <= successes + active;
    SubsetSize(Rivals(s, n, w.now), successes + active);
    UnionSize(successes, active);
    SubsetSize(active, ActiveAttempts(w.attempts, w.now));
  }

  /** Time and state changes never add a rival. */
  lemma RivalsShrink(p: Policy, w: World, m: Move, i: nat)
    requires i < |w.attempts|
    ensures var w' := Do(p, w, m);
            i < |w'.attempts| && w'.attempts[i].profileId == w.attempts[i].profileId
            && Rivals(w'.attempts, i, w'.now) <= Rivals(w.attempts, i, w.now)
  {
    hide HasRoom;
  }

  lemma MoveKeepsInv(p: Policy, w: World, m: Move)
    requires Inv(p, w)
    ensures Inv(p, Do(p, w, m))
  {
    hide HasRoom, Rivals;
    var w' := Do(p, w, m);
    forall i: nat | i < |w'.attempts| ensures AttemptOk(p, w'.attempts, i, w'.now) {
      if i < |w.attempts| {
        assert AttemptOk(p, w.attempts, i, w.now);
        RivalsShrink(p, w, m, i);
        SubsetSize(Rivals(w'.attempts, i, w'.now), Rivals(w.attempts, i, w.now));
      } else {
        AdmittedOk(p, w, m.profileId);
      }
    }
  }

  lemma {:induction false} RunKeepsInv(p: Policy, start: int, moves: seq<Move>)
    ensures Inv(p, Run(p, World([], start), moves))
  {
    if moves != [] {
      RunKeepsInv(p, start, moves[..|moves| - 1]);
      MoveKeepsInv(p, Run(p, World([], start), moves[..|moves| - 1]), moves[|moves| - 1]);
    }
  }

  // ----------------------------------------------------------------------------
  // The sliding window
  // ----------------------------------------------------------------------------

  /** Successful attempts of a profile that were started within the hour from `t` on. */
  function SuccessesIn(s: seq<Attempt>, profileId: string, t: int): set<nat>
  {
    set i: nat | i < |s| && s[i].profileId == profileId && Successful(s[i]) && t <= s[i].createdAt <= t + HOUR
  }

  function Strays(s: seq<Attempt>): set<nat>
  {
    set i: nat | i < |s| && s[i].stray
  }

  lemma {:induction false} Last(a: set<nat>) returns (m: nat)
    requires a != {}
    ensures m in a && forall x :: x in a ==> x <= m
  {
    var x :| x in a;
    m := x;
    if a != {x} {
      var k := Last(a - {x});
      m := if k > x then k else x;
      assert forall y :: y in a ==> y == x || y in a - {x};
    }
  }

  /** The hourly limit plus what can still be running when it is reached. */
  function Ceiling(p: Policy, profileId: string): int
    requires profileId in p.profiles
  {
    if Width(p, profileId) < 1 then 0 else p.profiles[profileId].maxExecutionsPerHour + Width(p, profileId) - 1
  }

  lemma RegularSuccessesBounded(p: Policy, w: World, profileId: string, t: int, regular: set<nat>)
    requires Inv(p, w) && regular == SuccessesIn(w.attempts, profileId, t) - Strays(w.attempts) && regular != {}
    ensures profileId in p.profiles
    ensures p.profiles[profileId].maxExecutionsPerHour > 0 ==> |regular| <= Ceiling(p, profileId)
  {
    var i := Last(regular);
    assert AttemptOk(p, w.attempts, i, w.now);
    assert regular - {i} <= Rivals(w.attempts, i, w.now);
    SubsetSize(regular - {i}, Rivals(w.attempts, i, w.now));
  }

  /** In every history the successful attempts of a rate-limited profile in any hour stay
      within the ceiling, not counting those that were brought back after the limits had
      stopped counting them. */
  lemma SlidingWindowBound(p: Policy, start: int, moves: seq<Move>, profileId: string, t: int)
    requires profileId in p.profiles && p.profiles[profileId].maxExecutionsPerHour > 0
    ensures var s := Run(p, World([], start), moves).attempts;
            |SuccessesIn(s, profileId, t)| <= Ceiling(p, profileId) + |Strays(s) * SuccessesIn(s, profileId, t)|
  {
    hide Run, Inv, Width;
    RunKeepsInv(p, start, moves);
    var w := Run(p, World([], start), moves);
    var all, strays := SuccessesIn(w.attempts, profileId, t), Strays(w.attempts);
    assert all == (all - strays) + (strays * all);
    UnionSize(all - strays, strays * all);
    if all - strays != {} {
      RegularSuccessesBounded(p, w, profileId, t, all - strays);
    }
  }

  // ----------------------------------------------------------------------------
  // The bound is reached
  // ----------------------------------------------------------------------------

  function Repeat<T>(x: T, n: nat): (r: seq<T>)
    ensures |r| == n && forall i :: 0 <= i < n ==> r[i] == x
  {
    if n == 0 then [] else Repeat(x, n - 1) + [x]
  }

  /** `k` attempts, each acknowledged before the next is admitted. */
  function OneByOne(profileId: string, k: nat): seq<Move>
  {
    if k == 0 then [] else OneByOne(profileId, k - 1) + [Admit(profileId)] + [Write(k - 1, Acknowledged)]
  }

  /** Then `d` attempts admitted side by side. */
  function SideBySide(profileId: string, k: nat, d: nat): seq<Move>
  {
    if d == 0 then OneByOne(profileId, k) else SideBySide(profileId, k, d - 1) + [Admit(profileId)]
  }

  /** Then `e` of them acknowledged. */
  function Burst(profileId: string, k: nat, d: nat, e: nat): seq<Move>
  {
    if e == 0 then SideBySide(profileId, k, d) else Burst(profileId, k, d, e - 1) + [Write(k + e - 1, Acknowledged)]
  }

  function Mixed(profileId: string, k: nat, d: nat): seq<Attempt>
  {
    Repeat(Attempt(profileId, 0, Acknowledged, false), k) + Repeat(Attempt(profileId, 0, Submitting, false), d)
  }

  function Range(a: nat, n: nat): (r: set<nat>)
    ensures forall i: nat :: i in r <==> a <= i < a + n
    ensures |r| == n
  {
    if n == 0 then {} else Range(a, n - 1) + {a + n - 1}
  }

  lemma MixedCounts(profileId: string, k: nat, d: nat)
    ensures |ActiveAttempts(Mixed(profileId, k, d), 0)| == |ActiveOf(Mixed(profileId, k, d), profileId, 0)| == d
    ensures |SuccessesSince(Mixed(profileId, k, d), profileId, -HOUR)| == k
    ensures |SuccessesIn(Mixed(profileId, k, d), profileId, 0)| == k
  {
    var s := Mixed(profileId, k, d);
    assert ActiveAttempts(s, 0) == Range(k, d);
    assert ActiveOf(s, profileId, 0) == Range(k, d);
    assert SuccessesSince(s, profileId, -HOUR) == Range(0, k);
    assert SuccessesIn(s, profileId, 0) == Range(0, k);
  }

  lemma RunLast(p: Policy, w: World, moves: seq<Move>, m: Move)
    ensures Run(p, w, moves + [m]) == Do(p, Run(p, w, moves), m)
  {
    assert (moves + [m])[..|moves|] == moves;
  }

  lemma AdmitMixed(p: Policy, profileId: string, k: nat, d: nat)
    requires profileId in p.profiles && d < Width(p, profileId) && k < p.profiles[profileId].maxExecutionsPerHour
    ensures Do(p, World(Mixed(profileId, k, d), 0), Admit(profileId)) == World(Mixed(profileId, k, d + 1), 0)
  {
    hide ActiveAttempts, ActiveOf, SuccessesSince;
    MixedCounts(profileId, k, d);
    assert Mixed(profileId, k, d + 1) == Mixed(profileId, k, d) + [Attempt(profileId, 0, Submitting, false)];
  }

  lemma AcknowledgeMixed(p: Policy, profileId: string, k: nat, d: nat)
    requires d > 0
    ensures Do(p, World(Mixed(profileId, k, d), 0), Write(k, Acknowledged)) == World(Mixed(profileId, k + 1, d - 1), 0)
  {
    assert Mixed(profileId, k, d)[k := Attempt(profileId, 0, Acknowledged, false)] == Mixed(profileId, k + 1, d - 1);
  }

  lemma {:induction false} OneByOneRun(p: Policy, profileId: string, k: nat)
    requires profileId in p.profiles && Width(p, profileId) >= 1 && k < p.profiles[profileId].maxExecutionsPerHour
    ensures Run(p, World([], 0), OneByOne(profileId, k)) == World(Mixed(profileId, k, 0), 0)
  {
    hide Do, Run, Mixed;
    if k == 0 {
      RunNothing(p, profileId);
    } else {
      OneByOneRun(p, profileId, k - 1);
      AdmitMixed(p, profileId, k - 1, 0);
      AcknowledgeMixed(p, profileId, k - 1, 1);
      RunLast(p, World([], 0), OneByOne(profileId, k - 1), Admit(profileId));
      RunLast(p, World([], 0), OneByOne(profileId, k - 1) + [Admit(profileId)], Write(k - 1, Acknowledged));
    }
  }

  lemma RunNothing(p: Policy, profileId: string)
    ensures Run(p, World([], 0), []) == World(Mixed(profileId, 0, 0), 0)
  {
  }

  lemma {:induction false} SideBySideRun(p: Policy, profileId: string, k: nat, d: nat)
    requires profileId in p.profiles && 1 <= Width(p, profileId) && d <= Width(p, profileId)
    requires k < p.profiles[profileId].maxExecutionsPerHour
    ensures Run(p, World([], 0), SideBySide(profileId, k, d)) == World(Mixed(profileId, k, d), 0)
  {
    hide Do, Run, Mixed, OneByOne;
    if d == 0 {
      OneByOneRun(p, profileId, k);
    } else {
      SideBySideRun(p, profileId, k, d - 1);
      AdmitMixed(p, profileId, k, d - 1);
      RunLast(p, World([], 0), SideBySide(profileId, k, d - 1), Admit(profileId));
    }
  }

  lemma {:induction false} BurstRun(p: Policy, profileId: string, k: nat, d: nat, e: nat)
    requires profileId in p.profiles && 1 <= Width(p, profileId) && e <= d <= Width(p, profileId)
    requires k < p.profiles[profileId].maxExecutionsPerHour
    ensures Run(p, World([], 0), Burst(profileId, k, d, e)) == World(Mixed(profileId, k + e, d - e), 0)
  {
    hide Do, Run, Mixed, SideBySide;
    if e == 0 {
      SideBySideRun(p, profileId, k, d);
    } else {
      BurstRun(p, profileId, k, d, e - 1);
      AcknowledgeMixed(p, profileId, k + e - 1, d - e + 1);
      RunLast(p, World([], 0), Burst(profileId, k, d, e - 1), Write(k + e - 1, Acknowledged));
    }
  }

  /** The bound is exact: some history without strays reaches it. */
  lemma BoundIsReached(p: Policy, profileId: string) returns (moves: seq<Move>)
    requires profileId in p.profiles && p.profiles[profileId].maxExecutionsPerHour > 0 && Width(p, profileId) >= 1
    ensures var s := Run(p, World([], 0), moves).attempts;
            && |SuccessesIn(s, profileId, 0)| == Ceiling(p, profileId)
            && Strays(s) == {}
  {
    hide Run, Mixed, Burst, Width, SuccessesIn;
    var k, d := p.profiles[profileId].maxExecutionsPerHour - 1, Width(p, profileId);
    moves := Burst(profileId, k, d, d);
    BurstRun(p, profileId, k, d, d);
    MixedCounts(profileId, k + d, 0);
    MixedHasNoStrays(profileId, k + d, 0);
  }

  lemma MixedHasNoStrays(profileId: string, k: nat, d: nat)
    ensures Strays(Mixed(profileId, k, d)) == {}
  {
  }

  /** The successes of the hour from `t` on stay within the hourly limit. */
  ghost predicate KeepsHourlyLimit(p: Policy, profileId: string, start: int, moves: seq<Move>, t: int)
    requires profileId in p.profiles
  {
    |SuccessesIn(Run(p, World([], start), moves).attempts, profileId, t)| <= p.profiles[profileId].maxExecutionsPerHour
  }

  ghost predicate HasStrays(p: Policy, start: int, moves: seq<Move>)
  {
    Strays(Run(p, World([], start), moves).attempts) != {}
  }

  /** So the hourly limit itself is kept in every history without strays exactly when
      attempts of the profile cannot run side by side. */
  lemma HourlyLimitKeptIff(p: Policy, profileId: string)
    requires profileId in p.profiles && p.profiles[profileId].maxExecutionsPerHour > 0
    ensures (forall start: int, moves: seq<Move>, t: int ::
               HasStrays(p, start, moves) || KeepsHourlyLimit(p, profileId, start, moves, t))
      <==> Width(p, profileId) <= 1
  {
    hide Run, Width, SuccessesIn, Strays;
    if Width(p, profileId) <= 1 {
      forall start: int, moves: seq<Move>, t: int
        ensures HasStrays(p, start, moves) || KeepsHourlyLimit(p, profileId, start, moves, t)
      {
        SlidingWindowBound(p, start, moves, profileId, t);
      }
    } else {
      var moves := BoundIsReached(p, profileId);
      assert !KeepsHourlyLimit(p, profileId, 0, moves, 0) && !HasStrays(p, 0, moves);
    }
  }

  // ----------------------------------------------------------------------------
  // Reconciliation escapes the limit
  // ----------------------------------------------------------------------------

  /** `n` attempts whose outcome is lost, and the first `e` of them reconciled later. */
  function LostThenFound(profileId: string, n: nat, e: nat): seq<Move>
  {
    if e > 0 then LostThenFound(profileId, n, e - 1) + [Write(e - 1, Reconciled)]
    else if n > 0 then LostThenFound(profileId, n - 1, 0) + [Admit(profileId)] + [Write(n - 1, OutcomeUnknown)]
    else []
  }

  function Found(profileId: string, e: nat, lost: nat): seq<Attempt>
  {
    Repeat(Attempt(profileId, 0, Reconciled, true), e) + Repeat(Attempt(profileId, 0, OutcomeUnknown, false), lost)
  }

  lemma LoseOne(p: Policy, profileId: string, n: nat)
    requires profileId in p.profiles && Width(p, profileId) >= 1
    ensures Do(p, Do(p, World(Found(profileId, 0, n), 0), Admit(profileId)), Write(n, OutcomeUnknown))
         == World(Found(profileId, 0, n + 1), 0)
  {
    var s := Found(profileId, 0, n);
    assert ActiveAttempts(s, 0) == {} && ActiveOf(s, profileId, 0) == {} && SuccessesSince(s, profileId, -HOUR) == {};
    var admitted := s + [Attempt(profileId, 0, Submitting, false)];
    assert admitted[n := Attempt(profileId, 0, OutcomeUnknown, false)] == Found(profileId, 0, n + 1);
  }

  lemma FindOne(p: Policy, profileId: string, e: nat, lost: nat)
    requires lost > 0
    ensures Do(p, World(Found(profileId, e, lost), 0), Write(e, Reconciled))
         == World(Found(profileId, e + 1, lost - 1), 0)
  {
    assert Found(profileId, e, lost)[e := Attempt(profileId, 0, Reconciled, true)] == Found(profileId, e + 1, lost - 1);
  }

  lemma {:induction false} LostThenFoundRun(p: Policy, profileId: string, n: nat, e: nat)
    requires profileId in p.profiles && Width(p, profileId) >= 1 && e <= n
    ensures Run(p, World([], 0), LostThenFound(profileId, n, e)) == World(Found(profileId, e, n - e), 0)
  {
    hide Do, Run, Found;
    if e > 0 {
      LostThenFoundRun(p, profileId, n, e - 1);
      FindOne(p, profileId, e - 1, n - e + 1);
      RunLast(p, World([], 0), LostThenFound(profileId, n, e - 1), Write(e - 1, Reconciled));
    } else if n > 0 {
      LostThenFoundRun(p, profileId, n - 1, 0);
      LoseOne(p, profileId, n - 1);
      RunLast(p, World([], 0), LostThenFound(profileId, n - 1, 0), Admit(profileId));
      RunLast(p, World([], 0), LostThenFound(profileId, n - 1, 0) + [Admit(profileId)], Write(n - 1, OutcomeUnknown));
    } else {
      FoundNothing(p, profileId);
    }
  }

  lemma FoundNothing(p: Policy, profileId: string)
    ensures Run(p, World([], 0), []) == World(Found(profileId, 0, 0), 0)
  {
  }

  /** No number bounds the successes of one hour once lost outcomes are reconciled: a lost
      attempt is not counted while others are admitted. */
  lemma ReconciliationIsUnlimited(p: Policy, profileId: string, n: nat)
    requires profileId in p.profiles && Width(p, profileId) >= 1
    ensures |SuccessesIn(Run(p, World([], 0), LostThenFound(profileId, n, n)).attempts, profileId, 0)| == n
  {
    hide Run, Width;
    LostThenFoundRun(p, profileId, n, n);
    assert SuccessesIn(Found(profileId, n, 0), profileId, 0) == Range(0, n);
  }

  /** Without that exemption the hourly limit is kept in every history exactly when the
      profile is never admitted at all. */
  lemma HourlyLimitAlwaysKeptIff(p: Policy, profileId: string)
    requires profileId in p.profiles && p.profiles[profileId].maxExecutionsPerHour > 0
    ensures (forall start: int, moves: seq<Move>, t: int :: KeepsHourlyLimit(p, profileId, start, moves, t))
      <==> Width(p, profileId) < 1
  {
    hide Run, Width, SuccessesIn, LostThenFound, Inv;
    var limit := p.profiles[profileId].maxExecutionsPerHour;
    if Width(p, profileId) >= 1 {
      var moves := LostThenFound(profileId, limit + 1, limit + 1);
      ReconciliationIsUnlimited(p, profileId, limit + 1);
      assert !KeepsHourlyLimit(p, profileId, 0, moves, 0);
    } else {
      forall start: int, moves: seq<Move>, t: int ensures KeepsHourlyLimit(p, profileId, start, moves, t) {
        RunKeepsInv(p, start, moves);
        NeverAdmitted(p, Run(p, World([], start), moves), profileId, t);
      }
    }
  }

  lemma NeverAdmitted(p: Policy, w: World, profileId: string, t: int)
    requires Inv(p, w) && profileId in p.profiles && Width(p, profileId) < 1
    ensures SuccessesIn(w.attempts, profileId, t) == {}
  {
    hide Rivals, Width;
    forall i: nat | i < |w.attempts| ensures w.attempts[i].profileId != profileId {
      assert AttemptOk(p, w.attempts, i, w.now);
    }
  }
}
