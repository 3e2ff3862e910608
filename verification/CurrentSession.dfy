/** Which session an agent is working in right now. */
module CurrentSession {
  import opened Common
  import opened Sorting

  /** A timestamp field: absent or empty, present but unreadable, or a time in seconds. */
  datatype Stamp = Blank | Garbled | At(time: int)

  /** The first timestamp, unless it is absent or empty. */
  function Or(a: Stamp, b: Stamp): Stamp
  {
    if a.Blank? then b else a
  }

  /** Evidence is stale when its time is unknown or too long ago. */
  predicate Stale(s: Stamp, threshold: int, now: int)
  {
    s.At? ==> now - s.time > threshold
  }

  datatype SessionState = Active | Recent | Completed | Failed | Archived | Unknown | Unstated

  datatype Session = Session(
    id: string, state: SessionState, model: Option<string>, startedAt: Stamp, lastActivityAt: Stamp)

  datatype Key = Key(strength: int, epoch: int, id: string)

  datatype Candidate = Candidate(key: Key, session: Session)

  predicate Qualifies(s: Session, leases: set<string>, delegating: set<string>)
  {
    s.id in leases || s.id in delegating
  }

  function KeyOf(s: Session, leases: set<string>): Key
  {
    var seen := Or(s.lastActivityAt, s.startedAt);
    Key(if s.id in leases then 2 else 1, if seen.At? then seen.time else 0, s.id)
  }

  /** Strength first, then recency, then the identifier. */
  predicate Below(a: Key, b: Key)
  {
    || a.strength < b.strength
    || (a.strength == b.strength && (a.epoch < b.epoch || (a.epoch == b.epoch && StrLess(a.id, b.id))))
  }

  function Candidates(sessions: seq<Session>, leases: set<string>, delegating: set<string>): seq<Candidate>
  {
    if sessions == [] then []
    else
      var n := |sessions| - 1;
      Candidates(sessions[..n], leases, delegating)
      + if Qualifies(sessions[n], leases, delegating) then [Candidate(KeyOf(sessions[n], leases), sessions[n])] else []
  }

  /** The first candidate that none of the others is above. */
  function Best(c: seq<Candidate>): Candidate
    requires c != []
  {
    if |c| == 1 || !Below(c[0].key, Best(c[1..]).key) then c[0] else Best(c[1..])
  }

  function Choose(sessions: seq<Session>, leases: set<string>, delegating: set<string>): Option<Session>
  {
    var c := Candidates(sessions, leases, delegating);
    if c == [] then None else Some(Best(c).session)
  }

  predicate Descending(a: Candidate, b: Candidate)
  {
    Below(b.key, a.key)
  }

  lemma {:induction false} SortedHead(c: seq<Candidate>)
    requires c != []
    ensures SortBy(c, Descending) != [] && SortBy(c, Descending)[0] == Best(c)
  {
    hide Below;
    if |c| == 1 {
      assert SortBy(c[1..], Descending) == [];
    } else {
      SortedHead(c[1..]);
    }
  }

  method ChooseCurrentSession(sessions: seq<Session>, leases: set<string>, delegating: set<string>)
    returns (chosen: Option<Session>, multiple: bool)
    ensures chosen == Choose(sessions, leases, delegating)
    ensures multiple <==> |Candidates(sessions, leases, delegating)| > 1
  {
    hide Qualifies, KeyOf, Best;
    var active: seq<Candidate> := [];
    for i := 0 to |sessions|
      invariant active == Candidates(sessions[..i], leases, delegating)
    {
      assert sessions[..i + 1][..i] == sessions[..i];
      var s := sessions[i];
      if Qualifies(s, leases, delegating) {
        active := active + [Candidate(KeyOf(s, leases), s)];
      }
    }
    assert sessions[..|sessions|] == sessions;
    if active == [] {
      return None, false;
    }
    multiple := |active| > 1;
    SortedHead(active);
    active := SortBy(active, Descending);
    chosen := Some(active[0].session);
  }

  // ----------------------------------------------------------------------------
  // What is chosen
  // ----------------------------------------------------------------------------

  lemma BelowIsStrictOrder(a: Key, b: Key, c: Key)
    ensures !Below(a, a)
    ensures Below(a, b) && Below(b, c) ==> Below(a, c)
    ensures a == b || Below(a, b) || Below(b, a)
  {
    StrLessIrreflexive(a.id);
    StrLessTotal(a.id, b.id);
    if StrLess(a.id, b.id) && StrLess(b.id, c.id) {
      StrLessTransitive(a.id, b.id, c.id);
    }
  }

  lemma {:induction false} BestIsMaximal(c: seq<Candidate>)
    requires c != []
    ensures Best(c) in c && forall i :: 0 <= i < |c| ==> !Below(Best(c).key, c[i].key)
  {
    hide Below;
    BelowIsStrictOrder(c[0].key, c[0].key, c[0].key);
    if |c| > 1 {
      var rest := c[1..];
      BestIsMaximal(rest);
      assert forall i :: 0 < i < |c| ==> c[i] == rest[i - 1];
      forall i | 0 < i < |c| ensures Below(c[0].key, Best(rest).key) || !Below(c[0].key, c[i].key) {
        BelowIsStrictOrder(Best(rest).key, c[i].key, c[0].key);
        BelowIsStrictOrder(c[0].key, c[i].key, Best(rest).key);
      }
      BelowIsStrictOrder(c[0].key, Best(rest).key, c[0].key);
      BelowIsStrictOrder(Best(rest).key, c[0].key, Best(rest).key);
    }
  }

  lemma {:induction false} CandidatesAre(sessions: seq<Session>, leases: set<string>, delegating: set<string>)
    ensures var c := Candidates(sessions, leases, delegating);
            && (forall x :: x in c ==> x.session in sessions && Qualifies(x.session, leases, delegating)
                                       && x.key == KeyOf(x.session, leases))
            && (forall s :: s in sessions && Qualifies(s, leases, delegating) ==> Candidate(KeyOf(s, leases), s) in c)
  {
    hide Qualifies, KeyOf;
    if sessions != [] {
      var n := |sessions| - 1;
      CandidatesAre(sessions[..n], leases, delegating);
      assert forall s :: s in sessions <==> s in sessions[..n] || s == sessions[n];
    }
  }

  /** The choice is the greatest qualifying session by lease, recency and identifier, and
      there is one exactly when some session qualifies. */
  lemma ChosenIsGreatest(sessions: seq<Session>, leases: set<string>, delegating: set<string>)
    ensures var r := Choose(sessions, leases, delegating);
            && (r.None? <==> forall s :: s in sessions ==> !Qualifies(s, leases, delegating))
            && (r.Some? ==>
                  && r.value in sessions && Qualifies(r.value, leases, delegating)
                  && forall s :: s in sessions && Qualifies(s, leases, delegating) ==>
                       !Below(KeyOf(r.value, leases), KeyOf(s, leases)))
  {
    hide Qualifies, KeyOf, Below, Best;
    CandidatesAre(sessions, leases, delegating);
    var c := Candidates(sessions, leases, delegating);
    if c != [] {
      assert c[0] in c;
      BestIsMaximal(c);
    }
  }

  ghost predicate IdsIdentify(sessions: seq<Session>)
  {
    forall s, t :: s in sessions && t in sessions && s.id == t.id ==> s == t
  }

  ghost predicate SameSessions(a: seq<Session>, b: seq<Session>)
  {
    forall s :: s in a <==> s in b
  }

  /** The order in which the sessions are listed does not matter. */
  lemma ChoiceOrderFree(a: seq<Session>, b: seq<Session>, leases: set<string>, delegating: set<string>)
    requires SameSessions(a, b) && IdsIdentify(a)
    ensures Choose(a, leases, delegating) == Choose(b, leases, delegating)
  {
    hide Qualifies, Below, Choose;
    ChosenIsGreatest(a, leases, delegating);
    ChosenIsGreatest(b, leases, delegating);
    var x, y := Choose(a, leases, delegating), Choose(b, leases, delegating);
    if x.Some? && y.Some? {
      BelowIsStrictOrder(KeyOf(x.value, leases), KeyOf(y.value, leases), KeyOf(x.value, leases));
      assert KeyOf(x.value, leases) == KeyOf(y.value, leases);
    }
  }

  function Qualifying(sessions: seq<Session>, leases: set<string>, delegating: set<string>): set<string>
  {
    set s | s in sessions && Qualifies(s, leases, delegating) :: s.id
  }

  ghost predicate UniqueIds(sessions: seq<Session>)
  {
    forall i, j :: 0 <= i < j < |sessions| ==> sessions[i].id != sessions[j].id
  }

  /** Multiplicity is flagged for two or more qualifying sessions, wherever they are listed. */
  lemma {:induction false} CandidatesCount(sessions: seq<Session>, leases: set<string>, delegating: set<string>)
    requires UniqueIds(sessions)
    ensures |Candidates(sessions, leases, delegating)| == |Qualifying(sessions, leases, delegating)|
  {
    hide Qualifies, KeyOf;
    if sessions != [] {
      var n := |sessions| - 1;
      var init := sessions[..n];
      CandidatesCount(init, leases, delegating);
      assert forall s :: s in sessions <==> s in init || s == sessions[n];
      assert sessions[n].id !in Qualifying(init, leases, delegating);
      assert Qualifying(sessions, leases, delegating)
          == Qualifying(init, leases, delegating)
             + if Qualifies(sessions[n], leases, delegating) then {sessions[n].id} else {};
    }
  }
}
