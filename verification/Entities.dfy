/** Identified entities, the keyed upsert/remove difference between two lists of
    them, and the client-side application of such a difference. */
module Entities {
  import opened Common
  import opened Sorting

  datatype Entity<+T> = Entity(id: string, body: T)

  datatype EntityDelta<+T> = EntityDelta(upsert: seq<Entity<T>>, remove: seq<string>) {
    predicate IsEmpty()
    {
      |upsert| == 0 && |remove| == 0
    }
  }

  /** The dictionary a list builds: a later entity replaces an earlier one with its id. */
  function ById<T>(s: seq<Entity<T>>): map<string, T>
  {
    if s == [] then map[]
    else
      var last := s[|s| - 1];
      ById(s[..|s| - 1])[last.id := last.body]
  }

  /** The dictionary's keys in iteration order: by first occurrence in the list. */
  function Keys<T>(s: seq<Entity<T>>): (r: seq<string>)
    ensures forall id :: id in r <==> id in ById(s)
    ensures Distinct(r)
  {
    if s == [] then []
    else
      var init := Keys(s[..|s| - 1]);
      var id := s[|s| - 1].id;
      if id in init then init else init + [id]
  }

  /** The entries of `curr`, in the order of `ids`, that are new or changed. */
  function Changed<T>(ids: seq<string>, prev: map<string, T>, curr: map<string, T>,
                      changed: (T, T) -> bool): seq<Entity<T>>
    requires forall id :: id in ids ==> id in curr
  {
    if ids == [] then []
    else
      var init := Changed(ids[..|ids| - 1], prev, curr, changed);
      var id := ids[|ids| - 1];
      if id !in prev || changed(prev[id], curr[id]) then init + [Entity(id, curr[id])] else init
  }

  /** The ids, in order, that `curr` no longer holds. */
  function Missing<T>(ids: seq<string>, curr: map<string, T>): seq<string>
  {
    if ids == [] then []
    else
      var init := Missing(ids[..|ids| - 1], curr);
      var id := ids[|ids| - 1];
      if id !in curr then init + [id] else init
  }

  predicate LessById<T>(a: Entity<T>, b: Entity<T>)
  {
    StrLess(a.id, b.id)
  }

  function Diff<T>(prev: seq<Entity<T>>, curr: seq<Entity<T>>, changed: (T, T) -> bool): EntityDelta<T>
  {
    EntityDelta(
      SortBy(Changed(Keys(curr), ById(prev), ById(curr), changed), LessById),
      SortBy(Missing(Keys(prev), ById(curr)), StrLess))
  }

  /** The same difference the way the program computes it: index both lists, walk
      the current index for upserts and the previous one for removals, then sort. */
  method DiffEntities<T>(prev: seq<Entity<T>>, curr: seq<Entity<T>>, changed: (T, T) -> bool)
    returns (delta: EntityDelta<T>)
    ensures delta == Diff(prev, curr, changed)
  {
    var prevIds, prevMap := IndexById(prev);
    var currIds, currMap := IndexById(curr);
    var upsert: seq<Entity<T>> := [];
    var remove: seq<string> := [];
    for i := 0 to |currIds|
      invariant upsert == Changed(currIds[..i], prevMap, currMap, changed)
    {
      var id := currIds[i];
      assert currIds[..i + 1][..i] == currIds[..i];
      if id !in prevMap {
        upsert := upsert + [Entity(id, currMap[id])];
      } else if changed(prevMap[id], currMap[id]) {
        upsert := upsert + [Entity(id, currMap[id])];
      }
    }
    for i := 0 to |prevIds|
      invariant remove == Missing(prevIds[..i], currMap)
    {
      assert prevIds[..i + 1][..i] == prevIds[..i];
      if prevIds[i] !in currMap {
        remove := remove + [prevIds[i]];
      }
    }
    assert currIds[..|currIds|] == currIds && prevIds[..|prevIds|] == prevIds;
    delta := EntityDelta(SortBy(upsert, LessById), SortBy(remove, StrLess));
  }

  method IndexById<T>(s: seq<Entity<T>>) returns (ids: seq<string>, index: map<string, T>)
    ensures ids == Keys(s) && index == ById(s)
  {
    ids, index := [], map[];
    for i := 0 to |s|
      invariant ids == Keys(s[..i]) && index == ById(s[..i])
    {
      assert s[..i + 1][..i] == s[..i];
      if s[i].id !in index {
        ids := ids + [s[i].id];
      }
      index := index[s[i].id := s[i].body];
    }
    assert s[..|s|] == s;
  }

  // ----------------------------------------------------------------------------
  // What a difference contains, independently of how it is computed
  // ----------------------------------------------------------------------------

  /** The entry `id` of `curr` is one that `prev` lacks or holds with another meaning. */
  predicate Upserted<T>(id: string, prev: map<string, T>, curr: map<string, T>, changed: (T, T) -> bool)
  {
    id in curr && (id !in prev || changed(prev[id], curr[id]))
  }

  /** `d` lists, in strictly increasing id order, exactly the upserted entries
      and exactly the ids that `curr` dropped. */
  ghost predicate IsDiff<T(!new)>(prev: map<string, T>, curr: map<string, T>, changed: (T, T) -> bool,
                                  d: EntityDelta<T>)
  {
    && StrictlySorted(d.upsert, LessById<T>)
    && StrictlySorted(d.remove, StrLess)
    && ListsUpserts(d.upsert, prev, curr, changed)
    && (forall id :: id in d.remove <==> id in prev && id !in curr)
  }

  ghost predicate ListsUpserts<T(!new)>(u: seq<Entity<T>>, prev: map<string, T>, curr: map<string, T>,
                                        changed: (T, T) -> bool)
  {
    && (forall i :: 0 <= i < |u| ==> Upserted(u[i].id, prev, curr, changed) && u[i].body == curr[u[i].id])
    && (forall id :: Upserted(id, prev, curr, changed) ==> Entity(id, curr[id]) in u)
  }

  lemma DiffIsDiff<T(!new)>(prev: seq<Entity<T>>, curr: seq<Entity<T>>, changed: (T, T) -> bool)
    ensures IsDiff(ById(prev), ById(curr), changed, Diff(prev, curr, changed))
  {
    var p, c := ById(prev), ById(curr);
    ChangedMembers(Keys(curr), p, c, changed);
    SortedUpserts(Changed(Keys(curr), p, c, changed));
    MissingMembers(Keys(prev), c);
    SortedRemovals(Missing(Keys(prev), c));
  }

  predicate DistinctIds<T>(s: seq<Entity<T>>)
  {
    forall i, j :: 0 <= i < j < |s| ==> s[i].id != s[j].id
  }

  lemma LessByIdIsWeakOrder<T(!new)>()
    ensures WeakOrder(LessById<T>)
  {
    StrLessIsWeakOrder();
  }

  lemma SortedUpserts<T(!new)>(ups: seq<Entity<T>>)
    requires DistinctIds(ups)
    ensures StrictlySorted(SortBy(ups, LessById<T>), LessById<T>)
    ensures SameMembers(SortBy(ups, LessById<T>), ups)
  {
    LessByIdIsWeakOrder<T>();
    SortByMembers(ups, LessById<T>);
    forall i, j | 0 <= i < |ups| && 0 <= j < |ups| && i != j
      ensures LessById(ups[i], ups[j]) || LessById(ups[j], ups[i])
    {
      StrLessTotal(ups[i].id, ups[j].id);
    }
    SortByStrict(ups, LessById<T>);
  }

  lemma SortedRemovals(ids: seq<string>)
    requires Distinct(ids)
    ensures StrictlySorted(SortBy(ids, StrLess), StrLess)
    ensures SameMembers(SortBy(ids, StrLess), ids)
  {
    StrLessIsWeakOrder();
    SortByMembers(ids, StrLess);
    forall i, j | 0 <= i < |ids| && 0 <= j < |ids| && i != j
      ensures StrLess(ids[i], ids[j]) || StrLess(ids[j], ids[i])
    {
      StrLessTotal(ids[i], ids[j]);
    }
    SortByStrict(ids, StrLess);
  }

  lemma {:induction false} ChangedMembers<T>(ids: seq<string>, prev: map<string, T>, curr: map<string, T>,
                                            changed: (T, T) -> bool)
    requires forall id :: id in ids ==> id in curr
    requires Distinct(ids)
    ensures var r := Changed(ids, prev, curr, changed);
            && DistinctIds(r)
            && (forall i :: 0 <= i < |r| ==>
                  r[i].id in ids && Upserted(r[i].id, prev, curr, changed) && r[i].body == curr[r[i].id])
            && (forall id :: id in ids && Upserted(id, prev, curr, changed) ==> Entity(id, curr[id]) in r)
  {
    if ids != [] {
      var init, id := ids[..|ids| - 1], ids[|ids| - 1];
      ChangedMembers(init, prev, curr, changed);
      assert ids == init + [id];
      assert id !in init;
    }
  }

  lemma {:induction false} MissingMembers<T>(ids: seq<string>, curr: map<string, T>)
    requires Distinct(ids)
    ensures var r := Missing(ids, curr);
            Distinct(r) && (forall id :: id in r <==> id in ids && id !in curr)
  {
    if ids != [] {
      var init, id := ids[..|ids| - 1], ids[|ids| - 1];
      MissingMembers(init, curr);
      assert ids == init + [id];
      assert id !in init;
    }
  }

  /** A difference is determined by the two dictionaries: list order does not matter. */
  lemma DiffUnique<T(!new)>(prev: map<string, T>, curr: map<string, T>, changed: (T, T) -> bool,
                            d: EntityDelta<T>, d': EntityDelta<T>)
    requires IsDiff(prev, curr, changed, d) && IsDiff(prev, curr, changed, d')
    ensures d == d'
  {
    LessByIdIsWeakOrder<T>();
    StrLessIsWeakOrder();
    StrictlySortedUnique(d.upsert, d'.upsert, LessById<T>);
    StrictlySortedUnique(d.remove, d'.remove, StrLess);
  }

  /** Lists with distinct ids and the same elements build the same dictionary. */
  lemma ByIdOrderFree<T(!new)>(a: seq<Entity<T>>, b: seq<Entity<T>>)
    requires DistinctIds(a) && DistinctIds(b) && multiset(a) == multiset(b)
    ensures ById(a) == ById(b)
  {
    ByIdDistinct(a);
    ByIdDistinct(b);
    var p, q := ById(a), ById(b);
    forall id | id in p ensures id in q && q[id] == p[id] {
      assert Entity(id, p[id]) in multiset(a);
      var i :| 0 <= i < |b| && b[i] == Entity(id, p[id]);
    }
    forall id | id in q ensures id in p {
      assert Entity(id, q[id]) in multiset(b);
      var i :| 0 <= i < |a| && a[i] == Entity(id, q[id]);
    }
  }

  lemma {:induction false} ByIdDistinct<T>(s: seq<Entity<T>>)
    requires DistinctIds(s)
    ensures forall i :: 0 <= i < |s| ==> s[i].id in ById(s) && ById(s)[s[i].id] == s[i].body
    ensures forall id :: id in ById(s) ==> Entity(id, ById(s)[id]) in s
  {
    if s != [] {
      var init, last := s[..|s| - 1], s[|s| - 1];
      ByIdDistinct(init);
      assert s == init + [last];
    }
  }

  // ----------------------------------------------------------------------------
  // Applying a difference, and entities up to a meaning
  // ----------------------------------------------------------------------------

  predicate Mentions<T>(d: EntityDelta<T>, id: string)
  {
    id in d.remove || id in ById(d.upsert)
  }

  /** The part of a list that a difference leaves alone. */
  function Retain<T>(s: seq<Entity<T>>, d: EntityDelta<T>): seq<Entity<T>>
  {
    if s == [] then []
    else
      var init := Retain(s[..|s| - 1], d);
      var last := s[|s| - 1];
      if Mentions(d, last.id) then init else init + [last]
  }

  /** A client's update: drop what is removed or replaced, then add the upserts. */
  function ApplyEntities<T>(s: seq<Entity<T>>, d: EntityDelta<T>): seq<Entity<T>>
  {
    Retain(s, d) + d.upsert
  }

  lemma {:induction false} RetainById<T>(s: seq<Entity<T>>, d: EntityDelta<T>)
    ensures ById(Retain(s, d)) == map id | id in ById(s) && !Mentions(d, id) :: ById(s)[id]
  {
    if s != [] {
      var init, last := s[..|s| - 1], s[|s| - 1];
      RetainById(init, d);
      if !Mentions(d, last.id) {
        var r := Retain(init, d) + [last];
        assert r[..|r| - 1] == Retain(init, d);
      }
    }
  }

  lemma {:induction false} ByIdAppend<T>(a: seq<Entity<T>>, b: seq<Entity<T>>)
    ensures ById(a + b) == ById(a) + ById(b)
  {
    if b == [] {
      assert a + b == a;
    } else {
      var init, last := b[..|b| - 1], b[|b| - 1];
      ByIdAppend(a, init);
      assert (a + b)[..|a + b| - 1] == a + init;
    }
  }

  /** Each entry reduced to what the comparison looks at. */
  function Meaning<T>(m: map<string, T>, norm: T -> T): map<string, T>
  {
    map id | id in m :: norm(m[id])
  }

  /** The comparison `changed` looks at exactly what `norm` keeps. */
  ghost predicate Compares<T(!new)>(changed: (T, T) -> bool, norm: T -> T)
  {
    forall x, y {:trigger changed(x, y)} :: changed(x, y) <==> norm(x) != norm(y)
  }

  /** A difference acts on dictionaries: erase the removed ids, then overlay the upserts. */
  lemma ApplyById<T>(s: seq<Entity<T>>, d: EntityDelta<T>)
    ensures ById(ApplyEntities(s, d)) == (ById(s) - (set id | id in d.remove)) + ById(d.upsert)
  {
    RetainById(s, d);
    ByIdAppend(Retain(s, d), d.upsert);
  }

  /** Entries a difference carries, seen as a dictionary. */
  lemma UpsertsById<T(!new)>(u: seq<Entity<T>>, p: map<string, T>, c: map<string, T>, changed: (T, T) -> bool)
    requires StrictlySorted(u, LessById<T>) && ListsUpserts(u, p, c, changed)
    ensures forall id :: id in ById(u) <==> Upserted(id, p, c, changed)
    ensures forall id :: id in ById(u) ==> ById(u)[id] == c[id]
  {
    forall i, j | 0 <= i < j < |u| ensures u[i].id != u[j].id {
      assert LessById(u[i], u[j]);
      StrLessIrreflexive(u[i].id);
    }
    ByIdDistinct(u);
    forall id | id in ById(u) ensures Upserted(id, p, c, changed) && ById(u)[id] == c[id] {
      var i :| 0 <= i < |u| && u[i] == Entity(id, ById(u)[id]);
    }
    forall id | Upserted(id, p, c, changed) ensures id in ById(u) {
      var i :| 0 <= i < |u| && u[i] == Entity(id, c[id]);
    }
  }

  /** The difference carries any list meaning the same as `prev` to one meaning the same as `curr`. */
  lemma DiffApplies<T(!new)>(state: seq<Entity<T>>, prev: seq<Entity<T>>, curr: seq<Entity<T>>,
                             changed: (T, T) -> bool, norm: T -> T)
    requires Compares(changed, norm)
    requires Meaning(ById(state), norm) == Meaning(ById(prev), norm)
    ensures Meaning(ById(ApplyEntities(state, Diff(prev, curr, changed))), norm) == Meaning(ById(curr), norm)
  {
    var s, p, c, d := ById(state), ById(prev), ById(curr), Diff(prev, curr, changed);
    ApplyById(state, d);
    DiffIsDiff(prev, curr, changed);
    UpsertsById(d.upsert, p, c, changed);
    SameMeaning(s, p, norm);
    OverlayMeaning(s, p, c, ById(d.upsert), (set id | id in d.remove), changed, norm);
  }

  lemma OverlayMeaning<T(!new)>(s: map<string, T>, p: map<string, T>, c: map<string, T>, u: map<string, T>,
                                gone: set<string>, changed: (T, T) -> bool, norm: T -> T)
    requires Compares(changed, norm)
    requires s.Keys == p.Keys && forall id :: id in s ==> norm(s[id]) == norm(p[id])
    requires forall id :: id in u <==> Upserted(id, p, c, changed)
    requires forall id :: id in u ==> id in c && u[id] == c[id]
    requires forall id :: id in gone <==> id in p && id !in c
    ensures Meaning((s - gone) + u, norm) == Meaning(c, norm)
  {
    var r := (s - gone) + u;
    forall id ensures id in r <==> id in c {
      assert id in c && id !in u ==> id in p;
    }
    forall id | id in c ensures norm(r[id]) == norm(c[id]) {
      if id !in u {
        assert r[id] == s[id];
        assert !changed(p[id], c[id]);
      }
    }
    SameMeaning(r, c, norm);
  }

  lemma SameMeaning<T>(a: map<string, T>, b: map<string, T>, norm: T -> T)
    ensures Meaning(a, norm) == Meaning(b, norm) <==>
            a.Keys == b.Keys && forall id :: id in a ==> norm(a[id]) == norm(b[id])
  {
    var x, y := Meaning(a, norm), Meaning(b, norm);
    assert x.Keys == a.Keys && y.Keys == b.Keys;
    if x == y {
      forall id | id in a ensures norm(a[id]) == norm(b[id]) {
        assert x[id] == y[id];
      }
    }
  }

  lemma EmptyDiff<T(!new)>(p: map<string, T>, c: map<string, T>, changed: (T, T) -> bool, norm: T -> T,
                           d: EntityDelta<T>)
    requires Compares(changed, norm) && IsDiff(p, c, changed, d)
    ensures d.IsEmpty() <==> p.Keys == c.Keys && forall id :: id in p ==> norm(p[id]) == norm(c[id])
  {
    if d.IsEmpty() {
      forall id ensures id in p <==> id in c {
        assert id !in d.remove;
        assert !Upserted(id, p, c, changed);
      }
      forall id | id in p ensures norm(p[id]) == norm(c[id]) {
        assert !Upserted(id, p, c, changed);
      }
    } else if d.upsert != [] {
      var id := d.upsert[0].id;
      assert Upserted(id, p, c, changed);
      assert id in p ==> norm(p[id]) != norm(c[id]);
    } else {
      var id := d.remove[0];
      assert id in p && id !in c;
    }
  }

  lemma DiffEmpty<T(!new)>(prev: seq<Entity<T>>, curr: seq<Entity<T>>, changed: (T, T) -> bool, norm: T -> T)
    requires Compares(changed, norm)
    ensures Diff(prev, curr, changed).IsEmpty() <==> Meaning(ById(prev), norm) == Meaning(ById(curr), norm)
  {
    DiffIsDiff(prev, curr, changed);
    EmptyDiff(ById(prev), ById(curr), changed, norm, Diff(prev, curr, changed));
    SameMeaning(ById(prev), ById(curr), norm);
  }

  /** No difference that does the job mentions fewer ids, and none is both upserted and removed. */
  lemma DiffMinimal<T(!new)>(prev: seq<Entity<T>>, curr: seq<Entity<T>>, changed: (T, T) -> bool,
                             norm: T -> T, other: EntityDelta<T>)
    requires Compares(changed, norm)
    requires Meaning(ById(ApplyEntities(prev, other)), norm) == Meaning(ById(curr), norm)
    ensures var d := Diff(prev, curr, changed);
            && (forall i :: 0 <= i < |d.upsert| ==> d.upsert[i].id in ById(other.upsert))
            && (forall i :: 0 <= i < |d.upsert| ==> d.upsert[i].id !in d.remove)
            && (forall id :: id in d.remove ==> id in other.remove)
  {
    var p, c, d := ById(prev), ById(curr), Diff(prev, curr, changed);
    DiffIsDiff(prev, curr, changed);
    ApplyById(prev, other);
    var r := ById(ApplyEntities(prev, other));
    SameMeaning(r, c, norm);
    assert forall id :: id in r && id !in ById(other.upsert) ==> id in p && r[id] == p[id];
    forall i | 0 <= i < |d.upsert| ensures d.upsert[i].id in ById(other.upsert) {
      assert d.upsert[i].id in r;
    }
    forall id | id in d.remove ensures id in other.remove {
      assert id !in r;
    }
  }
}
