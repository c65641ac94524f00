/** Building and tearing down a component: exact undo without faults, and interrupted teardown under any faults. */
module Undo {
  import opened World
  import opened Steps
  import opened Scans
  import opened Plans

  function Ensures(keys: seq<Key>): Plan {
    seq(|keys|, i requires 0 <= i < |keys| => EnsureStep(keys[i], Bare))
  }

  function Removes(keys: seq<Key>): Plan {
    seq(|keys|, i requires 0 <= i < |keys| => RemoveStep(keys[i]))
  }

  ghost predicate Distinct(keys: seq<Key>) {
    forall i, j :: 0 <= i < j < |keys| ==> keys[i] != keys[j]
  }

  predicate Putting(s: Step) {
    s.EnsureStep? || s.CloneStep?
  }

  predicate Pulling(s: Step) {
    s.RemoveStep? || s.DropStep?
  }

  ghost function From(p: Plan, i: nat): set<Key> {
    set j | i <= j < |p| && (Putting(p[j]) || Pulling(p[j])) :: p[j].key
  }

  /** A security context can be cloned when its source exists. */
  ghost predicate Cloneable(p: Plan, store: map<Key, Obj>) {
    forall j :: 0 <= j < |p| && p[j].CloneStep? ==> p[j].source in store
  }

  lemma CalmPut(s: Step, w: World)
    requires Putting(s) && Calm(w) && (s.CloneStep? ==> s.source in w.store)
    ensures var a := Do(s, w);
            a.r == Done && Calm(a.w) && a.w.store.Keys == w.store.Keys + {s.key}
            && forall k :: k in w.store ==> a.w.store[k] == w.store[k]
  {
    match s
    case EnsureStep(k, o) => CreateFacts(w, k, o);
    case CloneStep(k, source, user) =>
      var g := DoGet(w, k);
      GetFacts(w, k);
      GetFacts(g.w, source);
      CreateFacts(DoGet(g.w, source).w, k, WithUser(w.store[source], user));
  }

  lemma {:induction false} CalmBuilds(p: Plan, i: nat, w: World)
    requires i <= |p| && Calm(w) && Cloneable(p, w.store)
    requires forall j :: 0 <= j < |p| ==> Putting(p[j])
    ensures var a := Run(p, i, w);
            a.r == Done && Calm(a.w) && a.w.store.Keys == w.store.Keys + From(p, i)
            && forall k :: k in w.store ==> a.w.store[k] == w.store[k]
    decreases |p| - i
  {
    if i < |p| {
      CalmPut(p[i], w);
      CalmBuilds(p, i + 1, Do(p[i], w).w);
      assert From(p, i) == {p[i].key} + From(p, i + 1);
    } else {
      assert From(p, i) == {};
    }
  }

  lemma CalmPull(s: Step, w: World)
    requires Pulling(s) && Calm(w) && (s.RemoveStep? ==> s.key in w.store)
    ensures var a := Do(s, w);
            a.r == Done && Calm(a.w) && a.w.store == w.store - {s.key}
  {
    match s
    case RemoveStep(k) => DeleteFacts(w, k);
    case DropStep(k) =>
      var g := DoGet(w, k);
      GetFacts(w, k);
      DeleteFacts(g.w, k);
  }

  lemma {:induction false} CalmTakes(p: Plan, i: nat, w: World)
    requires i <= |p| && Calm(w)
    requires forall j :: 0 <= j < |p| ==> Pulling(p[j])
    requires forall j :: i <= j < |p| && p[j].RemoveStep? ==> p[j].key in w.store
    requires forall j, h :: 0 <= j < h < |p| && Pulling(p[j]) && p[h].RemoveStep? ==> p[j].key != p[h].key
    ensures var a := Run(p, i, w);
            a.r == Done && a.w.store == w.store - From(p, i)
    decreases |p| - i
  {
    if i < |p| {
      CalmPull(p[i], w);
      CalmTakes(p, i + 1, Do(p[i], w).w);
      assert From(p, i) == {p[i].key} + From(p, i + 1);
    } else {
      assert From(p, i) == {};
    }
  }

  /** Exact undo: what a plan adds to a store without any of its objects, a plan that takes the same objects away
      removes again, however often either of them sees to a shared object. */
  lemma UndoExact(add: Plan, del: Plan, w: World, v: World)
    requires Calm(w) && Calm(v) && Cloneable(add, w.store)
    requires forall j :: 0 <= j < |add| ==> Putting(add[j]) && add[j].key !in w.store
    requires forall j :: 0 <= j < |del| ==> Pulling(del[j])
    requires forall j, h :: 0 <= j < h < |del| && Pulling(del[j]) && del[h].RemoveStep? ==> del[j].key != del[h].key
    requires From(del, 0) == From(add, 0)
    requires v.store == Run(add, 0, w).w.store
    ensures Run(del, 0, v).r == Done && Run(del, 0, v).w.store == w.store
  {
    hide Do, Run;
    CalmBuilds(add, 0, w);
    forall j | 0 <= j < |del| ensures del[j].key in v.store {
      assert del[j].key in From(del, 0);
    }
    CalmTakes(del, 0, v);
    FromFresh(add, w.store);
    hide From;
    TakenBack(w.store, v.store, From(add, 0));
  }

  lemma TakenBack(before: map<Key, Obj>, after: map<Key, Obj>, added: set<Key>)
    requires after.Keys == before.Keys + added && added !! before.Keys
    requires forall k :: k in before ==> after[k] == before[k]
    ensures after - added == before
  {
  }

  lemma FromFresh(add: Plan, store: map<Key, Obj>)
    requires forall j :: 0 <= j < |add| ==> Putting(add[j]) && add[j].key !in store
    ensures From(add, 0) !! store.Keys
  {
  }

  /* ---------- Interrupted teardown ---------- */

  lemma {:induction false} RunRemoves(keys: seq<Key>, i: nat, w: World)
    requires i <= |keys|
    ensures Run(Removes(keys), i, w) == RemoveEach(w, keys, i)
    decreases |keys| - i
  {
    if i < |keys| {
      RunRemoves(keys, i + 1, RemoveKey(w, keys[i]).w);
    }
  }

  function Reversed(keys: seq<Key>): seq<Key> {
    seq(|keys|, i requires 0 <= i < |keys| => keys[|keys| - 1 - i])
  }

  lemma ReversedFrom(keys: seq<Key>)
    ensures From(Removes(Reversed(keys)), 0) == From(Ensures(keys), 0)
  {
    var add, del := Ensures(keys), Removes(Reversed(keys));
    forall k | k in From(add, 0) ensures k in From(del, 0) {
      var j :| 0 <= j < |add| && add[j].key == k;
      assert del[|keys| - 1 - j].key == k;
    }
    forall k | k in From(del, 0) ensures k in From(add, 0) {
      var j :| 0 <= j < |del| && del[j].key == k;
      assert add[|keys| - 1 - j].key == k;
    }
  }

  lemma ReversedRest(keys: seq<Key>, n: nat)
    requires n <= |keys| && Distinct(keys)
    ensures KeySet(Reversed(keys)[0..n]) == KeySet(keys) - KeySet(keys[..|keys| - n])
  {
    var back, m := Reversed(keys), |keys| - n;
    forall k | k in KeySet(keys) - KeySet(keys[..m]) ensures k in KeySet(back[0..n]) {
      var x :| 0 <= x < |keys| && keys[x] == k;
      assert forall y :: 0 <= y < m ==> keys[..m][y] == keys[y];
      assert back[0..n][|keys| - 1 - x] == k;
    }
    forall k | k in KeySet(back[0..n]) ensures k in KeySet(keys) - KeySet(keys[..m]) {
      var y :| 0 <= y < n && back[0..n][y] == k;
      assert keys[|keys| - 1 - y] == k;
    }
  }

  /** Exact undo of a plan that ensures distinct keys, by removal in reverse order. */
  lemma UndoKeys(keys: seq<Key>, w: World, v: World)
    requires Distinct(keys) && Calm(w) && Calm(v) && forall k :: k in keys ==> k !in w.store
    requires v.store == Run(Ensures(keys), 0, w).w.store
    ensures Run(Removes(Reversed(keys)), 0, v).r == Done && Run(Removes(Reversed(keys)), 0, v).w.store == w.store
  {
    hide Do, Run;
    ReversedFrom(keys);
    UndoExact(Ensures(keys), Removes(Reversed(keys)), w, v);
  }

  /** A teardown in reverse order, interrupted by any faults, leaves a prefix of the creation order. */
  lemma TeardownPrefix(keys: seq<Key>, w: World) returns (m: nat)
    requires Distinct(keys) && forall k :: k in keys ==> k in w.store
    ensures var a := Run(Removes(Reversed(keys)), 0, w);
            && m <= |keys|
            && a.w.store.Keys * KeySet(keys) == KeySet(keys[..m])
            && a.w.store.Keys - KeySet(keys) == w.store.Keys - KeySet(keys)
            && (a.r == Done ==> m == 0)
  {
    var back := Reversed(keys);
    RunRemoves(back, 0, w);
    var n := RemoveEachPrefix(w, back, 0);
    ReversedRest(keys, n);
    m := |keys| - n;
    assert KeySet(keys) <= w.store.Keys;
    assert KeySet(keys[..m]) <= KeySet(keys);
  }
}
