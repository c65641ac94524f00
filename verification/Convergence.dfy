/** What a fault-free user stage achieves, exactly, and what follows from it. */
module Convergence {
  import opened World
  import opened Steps
  import opened Plans
  import opened Htpasswd
  import opened UserStage
  import opened Frame
  import opened Accounts

  /* ---------- One user ---------- */

  function Links(name: string): set<Key> {
    {Link(name, 0), Link(name, 1), Link(name, 2), Link(name, 3)}
  }

  lemma LinksDisjoint(a: string, b: string)
    ensures a != b ==> Links(a) !! Links(b)
    ensures SECRET !in Links(a)
    ensures |Links(a)| == 4
  {
    assert |Links(a)| == 4;
    if a != b {
      forall k | k in Links(a) ensures k !in Links(b) {
        assert exists i :: 0 <= i < 4 && k == Link(a, i);
        var i :| 0 <= i < 4 && k == Link(a, i);
        forall j | 0 <= j < 4 ensures Link(b, j) != k { LinkInjective(a, i, b, j); }
      }
    }
  }

  lemma CalmTake(name: string, i: nat, w: World)
    requires i < 4 && Calm(w)
    ensures var a := RemoveKey(w, Link(name, i));
            Calm(a.w) && (a.r == Done <==> Link(name, i) in w.store) && a.w.store == w.store - {Link(name, i)}
  {
    DeleteFacts(w, Link(name, i));
  }

  ghost function LowerLinks(name: string, i: nat): set<Key>
    requires i <= 4
  {
    set j: nat | j < i :: Link(name, j)
  }

  lemma LowerNext(name: string, i: nat)
    requires i < 4
    ensures LowerLinks(name, i + 1) == LowerLinks(name, i) + {Link(name, i)}
    ensures forall j :: 0 <= j < i ==> Link(name, j) != Link(name, i)
  {
    forall j | 0 <= j < i ensures Link(name, j) != Link(name, i) { LinkInjective(name, i, name, j); }
  }

  lemma {:induction false} RemoveLower(name: string, i: nat, w: World)
    requires i <= 4 && Calm(w) && forall j :: 0 <= j < i ==> Link(name, j) in w.store
    ensures var a := Run(RemoveBlock(name), 5 - i, w);
            a.r == Done && Calm(a.w) && a.w.store == w.store - LowerLinks(name, i)
  {
    hide Do, Run, Link, RemoveBlock, RemoveKey;
    var p := RemoveBlock(name);
    RemoveSteps(name);
    if i == 0 {
      RunEnd(p, w);
    } else {
      CalmTake(name, i - 1, w);
      DoRemove(Link(name, i - 1), w);
      LowerNext(name, i - 1);
      RunNext(p, 5 - i, w);
      RemoveLower(name, i - 1, Do(p[5 - i], w).w);
    }
  }

  lemma RemoveSteps(name: string)
    ensures var p := RemoveBlock(name);
            |p| == 5 && p[4] == RemoveStep(Link(name, 0)) && p[3] == RemoveStep(Link(name, 1))
            && p[2] == RemoveStep(Link(name, 2)) && p[1] == RemoveStep(Link(name, 3))
  {
  }

  lemma DoRemove(k: Key, w: World)
    ensures Do(RemoveStep(k), w) == RemoveKey(w, k)
  {
  }

  lemma LowerAll(name: string)
    ensures LowerLinks(name, 4) == Links(name)
  {
  }

  /** Without faults a removal fails exactly on a user whose chain is incomplete, and then removes nothing. */
  lemma CalmRemove(name: string, w: World)
    requires Calm(w) && Chained(w.store)
    ensures var a := Run(RemoveBlock(name), 0, w);
            && Calm(a.w)
            && (a.r == Done <==> Complete(w.store, name))
            && a.w.store == (if a.r == Done then w.store - Links(name) else w.store)
  {
    hide Do, Run, Link, RemoveKey, Chained;
    var p := RemoveBlock(name);
    CalmPeek(UserKey(name), w);
    RemoveSteps(name);
    assert p[0] == PeekStep(UserKey(name));
    hide RemoveBlock;
    var g := Do(p[0], w);
    LastLink(w.store, name);
    RunNext(p, 0, w);
    RunNext(p, 1, g.w);
    CalmTake(name, 3, g.w);
    DoRemove(Link(name, 3), g.w);
    if Complete(w.store, name) {
      RemoveLower(name, 4, g.w);
      LowerAll(name);
    }
  }

  /** The store with a user's missing objects added, as far as their presence and the user's label go. */
  ghost predicate Added(before: map<Key, Obj>, after: map<Key, Obj>, names: set<string>) {
    && (forall k :: k in before ==> k in after && after[k] == before[k])
    && (forall k :: k in after && k !in before ==> exists n :: n in names && k in Links(n))
    && (forall n :: n in names ==> Complete(after, n))
    && (forall n :: n in names && Link(n, 0) !in before ==> after[Link(n, 0)] == Account(true))
  }

  function Put(store: map<Key, Obj>, k: Key, o: Obj): map<Key, Obj> {
    if k in store then store else store[k := o]
  }

  lemma CalmPutOne(k: Key, o: Obj, w: World)
    requires Calm(w)
    ensures var a := Do(EnsureStep(k, o), w);
            a.r == Done && Calm(a.w) && a.w.store == Put(w.store, k, o)
  {
    CreateFacts(w, k, o);
  }

  lemma CalmPeek(k: Key, w: World)
    requires Calm(w)
    ensures var a := Do(PeekStep(k), w);
            a.r == Done && Calm(a.w) && a.w.store == w.store
  {
    GetFacts(w, k);
  }

  lemma CalmAdd(name: string, w: World)
    requires Calm(w)
    ensures var a := Run(AddBlock(name), 0, w);
            a.r == Done && Calm(a.w) && Added(w.store, a.w.store, {name})
  {
    hide Do, Run, Put, Added;
    var p := AddBlock(name);
    CalmPutOne(UserKey(name), Account(true), w);
    var a0 := Do(p[0], w);
    CalmPutOne(Binding(name), Names([name]), a0.w);
    var a1 := Do(p[1], a0.w);
    CalmPeek(UserKey(name), a1.w);
    var a2 := Do(p[2], a1.w);
    CalmPutOne(IdentityKey(name), Bare, a2.w);
    var a3 := Do(p[3], a2.w);
    CalmPutOne(MappingKey(name), Bare, a3.w);
    var a4 := Do(p[4], a3.w);
    RunNext(p, 0, w);
    RunNext(p, 1, a0.w);
    RunNext(p, 2, a1.w);
    RunNext(p, 3, a2.w);
    RunNext(p, 4, a3.w);
    RunEnd(p, a4.w);
    AddedOne(name, w.store);
  }

  lemma AddedOne(name: string, before: map<Key, Obj>)
    ensures var s2 := Put(Put(before, UserKey(name), Account(true)), Binding(name), Names([name]));
            Added(before, Put(Put(s2, IdentityKey(name), Bare), MappingKey(name), Bare), {name})
  {
    assert Link(name, 0) in Links(name) && Link(name, 1) in Links(name) && Link(name, 2) in Links(name)
        && Link(name, 3) in Links(name);
  }

  /* ---------- All removals, all additions ---------- */

  /** The listed users from the i-th on that are not wanted. */
  ghost function StaleFrom(items: seq<string>, wanted: set<string>, i: nat): set<string> {
    set j | i <= j < |items| && items[j] !in wanted :: items[j]
  }

  ghost function LinksOf(names: set<string>): set<Key> {
    set n, k | n in names && k in Links(n) :: k
  }

  lemma StaleNext(items: seq<string>, wanted: set<string>, i: nat)
    requires i < |items|
    ensures StaleFrom(items, wanted, i) ==
            StaleFrom(items, wanted, i + 1) + if items[i] in wanted then {} else {items[i]}
    ensures items[i] !in wanted ==>
        LinksOf(StaleFrom(items, wanted, i)) == Links(items[i]) + LinksOf(StaleFrom(items, wanted, i + 1))
  {
  }

  lemma CompleteApart(store: map<Key, Obj>, a: string, b: string)
    requires a != b
    ensures Complete(store - Links(a), b) <==> Complete(store, b)
  {
    LinksDisjoint(a, b);
    forall i | 0 <= i < 4 ensures Link(b, i) !in Links(a) { assert Link(b, i) in Links(b); }
  }

  ghost predicate AllDifferent(items: seq<string>) {
    forall i, j :: 0 <= i < j < |items| ==> items[i] != items[j]
  }

  /** The first removal leaves the other stale users as complete as they were. */
  lemma RemovedFirst(items: seq<string>, wanted: set<string>, i: nat, before: map<Key, Obj>)
    requires i < |items| && AllDifferent(items) && items[i] !in wanted
    ensures forall n :: n in StaleFrom(items, wanted, i + 1) ==>
              (Complete(before - Links(items[i]), n) <==> Complete(before, n))
    ensures (forall n :: n in StaleFrom(items, wanted, i) ==> Complete(before, n)) <==>
            Complete(before, items[i]) && forall n :: n in StaleFrom(items, wanted, i + 1) ==> Complete(before, n)
    ensures before - Links(items[i]) - LinksOf(StaleFrom(items, wanted, i + 1))
        == before - LinksOf(StaleFrom(items, wanted, i))
  {
    hide Complete, Links;
    StaleNext(items, wanted, i);
    forall n | n in StaleFrom(items, wanted, i + 1)
      ensures Complete(before - Links(items[i]), n) <==> Complete(before, n)
    {
      CompleteApart(before, items[i], n);
    }
  }

  /** All removals together succeed exactly when every stale user is complete. */
  lemma {:induction false} CalmRemovals(items: seq<string>, wanted: set<string>, i: nat, w: World)
    requires i <= |items| && AllDifferent(items) && Calm(w) && Chained(w.store)
    ensures var a := Run(Flat(Removals(items, wanted), i), 0, w); var stale := StaleFrom(items, wanted, i);
            && (a.r == Done <==> forall n :: n in stale ==> Complete(w.store, n))
            && (a.r == Done ==> Calm(a.w) && a.w.store == w.store - LinksOf(stale))
    decreases |items| - i
  {
    var blocks := Removals(items, wanted);
    if i == |items| {
      assert LinksOf(StaleFrom(items, wanted, i)) == {};
    } else if items[i] in wanted {
      StaleNext(items, wanted, i);
      hide Do, Chained, Complete, LinksOf, StaleFrom;
      RunConcat([], Flat(blocks, i + 1), 0, w);
      CalmRemovals(items, wanted, i + 1, w);
    } else {
      hide Do, Run, Chained, Complete, Links, LinksOf, StaleFrom, RemoveBlock, AllDifferent;
      var b := RemoveBlock(items[i]);
      RemovedFirst(items, wanted, i, w.store);
      RunConcat(b, Flat(blocks, i + 1), 0, w);
      CalmRemove(items[i], w);
      BlockChained(b, w);
      var a := Run(b, 0, w);
      if a.r == Done {
        CalmRemovals(items, wanted, i + 1, a.w);
      }
    }
  }

  ghost function MissingFrom(order: seq<string>, items: seq<string>, i: nat): set<string> {
    set j | i <= j < |order| && order[j] !in items :: order[j]
  }

  lemma AddedThen(a: map<Key, Obj>, b: map<Key, Obj>, c: map<Key, Obj>, m: set<string>, n: set<string>)
    requires Added(a, b, m) && Added(b, c, n)
    ensures Added(a, c, m + n)
  {
    forall x | x in m + n ensures Complete(c, x) {
      if x in m { assert Complete(b, x); }
    }
    forall x | x in m + n && Link(x, 0) !in a ensures Link(x, 0) in c && c[Link(x, 0)] == Account(true) {
      if x in m { assert Complete(b, x) && Link(x, 0) in b; }
      else if Link(x, 0) in b {
        var y :| y in m && Link(x, 0) in Links(y);
        LinksDisjoint(x, y);
      }
    }
  }

  lemma {:induction false} CalmAdditions(order: seq<string>, items: seq<string>, i: nat, w: World)
    requires i <= |order| && Calm(w)
    ensures var a := Run(Flat(Additions(order, items), i), 0, w);
            a.r == Done && Calm(a.w) && Added(w.store, a.w.store, MissingFrom(order, items, i))
    decreases |order| - i
  {
    hide Do, Added, AddBlock;
    var blocks := Additions(order, items);
    if i < |order| {
      RunConcat(blocks[i], Flat(blocks, i + 1), 0, w);
      if order[i] in items {
        CalmAdditions(order, items, i + 1, w);
        assert MissingFrom(order, items, i) == MissingFrom(order, items, i + 1);
      } else {
        CalmAdd(order[i], w);
        var a := Run(AddBlock(order[i]), 0, w);
        CalmAdditions(order, items, i + 1, a.w);
        AddedThen(w.store, a.w.store, Run(Flat(blocks, i), 0, w).w.store, {order[i]}, MissingFrom(order, items, i + 1));
        assert MissingFrom(order, items, i) == {order[i]} + MissingFrom(order, items, i + 1);
      }
    } else {
      AddedNothing(w.store);
      assert MissingFrom(order, items, i) == {};
    }
  }

  lemma AddedNothing(store: map<Key, Obj>)
    ensures Added(store, store, {})
  {
  }

  /* ---------- The stage ---------- */

  /** After the stage: a wanted user that was not listed has all four objects, a wanted user that was listed has what
      it had, an unwanted listed user has nothing, and everyone else is as before. */
  ghost predicate Exact(before: map<Key, Obj>, after: map<Key, Obj>, wanted: set<string>) {
    && (forall n, i :: 0 <= i < 4 ==>
         (Link(n, i) in after <==>
          if n in wanted then Link(n, i) in before || !IsManaged(before, n)
          else Link(n, i) in before && !IsManaged(before, n)))
    && (forall n :: IsManaged(after, n) <==> n in wanted && (IsManaged(before, n) || Link(n, 0) !in before))
  }

  lemma InLinksOf(names: set<string>, n: string, i: nat)
    requires i < 4
    ensures Link(n, i) in LinksOf(names) <==> n in names
  {
    assert Link(n, i) in Links(n);
    if Link(n, i) in LinksOf(names) {
      var m :| m in names && Link(n, i) in Links(m);
      LinksDisjoint(n, m);
    }
  }

  lemma LinkOwner(m: string, n: string, i: nat)
    requires i < 4 && Link(n, i) in Links(m)
    ensures m == n
  {
    assert Link(n, i) in Links(n);
    LinksDisjoint(n, m);
  }

  lemma NotAdded(before: map<Key, Obj>, after: map<Key, Obj>, names: set<string>, n: string, i: nat)
    requires Added(before, after, names) && n !in names && i < 4
    ensures SameAt(before, after, Link(n, i))
  {
    hide Link, Links, Complete;
    var k := Link(n, i);
    if k in after && k !in before {
      var m :| m in names && k in Links(m);
      LinkOwner(m, n, i);
    }
  }

  lemma ExactOne(before: map<Key, Obj>, after: map<Key, Obj>, wanted: set<string>, stale: set<string>,
                 missing: set<string>, n: string, i: nat)
    requires i < 4
    requires n in stale <==> IsManaged(before, n) && n !in wanted
    requires n in missing <==> n in wanted && !IsManaged(before, n)
    requires Added(before - LinksOf(stale), after, missing)
    ensures Link(n, i) in after <==>
            if n in wanted then Link(n, i) in before || !IsManaged(before, n)
            else Link(n, i) in before && !IsManaged(before, n)
    ensures Link(n, i) in after && n !in missing ==> Link(n, i) in before && after[Link(n, i)] == before[Link(n, i)]
    ensures n in missing && Link(n, i) in before ==> Link(n, i) in after && after[Link(n, i)] == before[Link(n, i)]
  {
    hide Link, Links;
    InLinksOf(stale, n, i);
    if n in missing {
      assert Complete(after, n);
    } else {
      NotAdded(before - LinksOf(stale), after, missing, n, i);
    }
  }

  lemma ExactAll(before: map<Key, Obj>, after: map<Key, Obj>, wanted: set<string>, stale: set<string>,
                 missing: set<string>)
    requires forall n :: n in stale <==> IsManaged(before, n) && n !in wanted
    requires forall n :: n in missing <==> n in wanted && !IsManaged(before, n)
    requires Added(before - LinksOf(stale), after, missing)
    ensures Exact(before, after, wanted)
  {
    forall n, i | 0 <= i < 4
      ensures Link(n, i) in after <==>
          if n in wanted then Link(n, i) in before || !IsManaged(before, n)
          else Link(n, i) in before && !IsManaged(before, n)
    {
      ExactOne(before, after, wanted, stale, missing, n, i);
    }
    forall n ensures IsManaged(after, n) <==> n in wanted && (IsManaged(before, n) || Link(n, 0) !in before) {
      ExactOne(before, after, wanted, stale, missing, n, 0);
      InLinksOf(stale, n, 0);
      assert Link(n, 0) == UserKey(n);
    }
  }

  lemma ExactFrame(before: map<Key, Obj>, mid: map<Key, Obj>, after: map<Key, Obj>, wanted: set<string>)
    requires Exact(before, mid, wanted)
    requires forall n, i :: 0 <= i < 4 ==> SameAt(mid, after, Link(n, i))
    ensures Exact(before, after, wanted)
  {
    forall n ensures IsManaged(after, n) <==> IsManaged(mid, n) {
      assert SameAt(mid, after, Link(n, 0));
    }
  }

  lemma SecretFrame(spec: Spec, ch: Choice, w: World)
    requires Calm(w)
    ensures var a := Do(SecretFile(File(ch.lines, ch.hash), spec.users, spec.prefix), w);
            a.r == Done && forall n, i :: 0 <= i < 4 ==> SameAt(w.store, a.w.store, Link(n, i))
  {
    var text := File(ch.lines, ch.hash);
    var c := DoCreate(w, SECRET, Text(text));
    CreateFacts(w, SECRET, Text(text));
    var g := DoGet(c.w, SECRET);
    GetFacts(c.w, SECRET);
    var d := DoDelete(g.w, SECRET);
    DeleteFacts(g.w, SECRET);
    CreateFacts(d.w, SECRET, Text(text));
    forall n, i | 0 <= i < 4 ensures SameAt(w.store, SecretStep(w, text, spec.users, spec.prefix).w.store, Link(n, i)) {
      LinkInjective(n, i, n, i);
      SecretAvoids(w, text, spec.users, spec.prefix, Link(n, i));
    }
  }

  ghost predicate StaleComplete(store: map<Key, Obj>, wanted: set<string>) {
    forall n :: IsManaged(store, n) && n !in wanted ==> Complete(store, n)
  }

  lemma StaleAndMissing(items: seq<string>, order: seq<string>, store: map<Key, Obj>, wanted: set<string>)
    requires Ordering(items, Managed(store)) && Ordering(order, wanted)
    ensures forall n :: n in StaleFrom(items, wanted, 0) <==> IsManaged(store, n) && n !in wanted
    ensures forall n :: n in MissingFrom(order, items, 0) <==> n in wanted && !IsManaged(store, n)
  {
    forall n | IsManaged(store, n) && n !in wanted ensures n in StaleFrom(items, wanted, 0) {
      assert n in Managed(store) && n in items;
    }
    forall n | n in wanted && !IsManaged(store, n) ensures n in MissingFrom(order, items, 0) {
      assert n in order;
    }
  }

  /** Without faults the stage succeeds exactly when every listed user that is no longer wanted is complete, and then
      its effect is exact, whatever the list order and the map iteration orders. */
  lemma CalmStage(spec: Spec, ch: Choice, w: World)
    requires Calm(w) && Chained(w.store) && Possible(spec, ch, w)
    ensures var a := UserStage.Stage(spec, ch, w); var wanted := Wanted(spec.prefix, spec.users);
            && (a.r == Done <==> StaleComplete(w.store, wanted))
            && (a.r == Done ==> Exact(w.store, a.w.store, wanted))
  {
    hide Do, Run, Flat, DoList, Removals, Additions, Chained, Complete, Exact, IsManaged, Wanted;
    var wanted := Wanted(spec.prefix, spec.users);
    var l := DoList(w);
    ListKeeps(w);
    StaleAndMissing(ch.items, ch.order, w.store, wanted);
    var stale, missing := StaleFrom(ch.items, wanted, 0), MissingFrom(ch.order, ch.items, 0);
    CalmRemovals(ch.items, wanted, 0, l.w);
    var a := Run(Flat(Removals(ch.items, wanted), 0), 0, l.w);
    if a.r == Done {
      AfterRemovals(spec, ch, w, a.w);
      CalmAdditions(ch.order, ch.items, 0, a.w);
      var b := Run(Flat(Additions(ch.order, ch.items), 0), 0, a.w);
      ExactAll(w.store, b.w.store, wanted, stale, missing);
      SecretFrame(spec, ch, b.w);
      ExactFrame(w.store, b.w.store, UserStage.Stage(spec, ch, w).w.store, wanted);
    } else {
      EarlyEnd(spec, ch, w);
    }
  }

  /** When the list call fails, nobody counts as listed: if no later call fails, the stage removes nobody, completes
      every wanted user, and succeeds. */
  lemma UnlistedStage(spec: Spec, ch: Choice, w: World)
    requires DoList(w).out != Ok && Calm(DoList(w).w) && Possible(spec, ch, w)
    ensures var a, wanted := UserStage.Stage(spec, ch, w), Wanted(spec.prefix, spec.users);
            && a.r == Done
            && (forall n :: n in wanted ==> Complete(a.w.store, n))
            && forall n, i :: 0 <= i < 4 && Link(n, i) in w.store ==> SameAt(w.store, a.w.store, Link(n, i))
  {
    hide Do, Run, Flat, DoList, Removals, Additions, Complete, Wanted, Link;
    var wanted := Wanted(spec.prefix, spec.users);
    var l := DoList(w);
    ListKeeps(w);
    assert Removals([], wanted) == [] by { NoRemovals(wanted); }
    assert Flat([], 0) == [] by { NoBlocks(); }
    UserStage.Nothing(l.w);
    AfterRemovals(spec, ch, w, l.w);
    CalmAdditions(ch.order, [], 0, l.w);
    var b := Run(Flat(Additions(ch.order, []), 0), 0, l.w);
    assert forall n :: n in MissingFrom(ch.order, [], 0) <==> n in wanted;
    SecretFrame(spec, ch, b.w);
    var v := UserStage.Stage(spec, ch, w).w.store;
    forall n | n in wanted ensures Complete(v, n) {
      assert Complete(b.w.store, n);
      CompleteSame(b.w.store, v, n);
    }
  }

  lemma NoRemovals(wanted: set<string>)
    ensures Removals([], wanted) == []
  {
  }

  lemma NoBlocks()
    ensures Flat([], 0) == []
  {
  }

  lemma CompleteSame(a: map<Key, Obj>, b: map<Key, Obj>, n: string)
    requires Complete(a, n) && forall i :: 0 <= i < 4 ==> SameAt(a, b, Link(n, i))
    ensures Complete(b, n)
  {
    forall i | 0 <= i < 4 ensures Link(n, i) in b { assert SameAt(a, b, Link(n, i)); }
  }

  /* ---------- Consequences ---------- */

  /** A listed user counts as done: a wanted user is complete after the stage exactly when it was complete before or
      was not listed. So a user half created by a failed pass stays half created. */
  lemma HalfCreatedStays(spec: Spec, ch: Choice, w: World, name: string)
    requires Calm(w) && Chained(w.store) && Possible(spec, ch, w)
    requires UserStage.Stage(spec, ch, w).r == Done && name in Wanted(spec.prefix, spec.users)
    ensures Complete(UserStage.Stage(spec, ch, w).w.store, name) <==>
            (IsManaged(w.store, name) ==> Complete(w.store, name))
  {
    hide UserStage.Stage, Wanted, IsManaged, Chained;
    CalmStage(spec, ch, w);
    var after := UserStage.Stage(spec, ch, w).w.store;
    assert forall i :: 0 <= i < 4 ==>
        (Link(name, i) in after <==> Link(name, i) in w.store || !IsManaged(w.store, name));
  }

  /** Labelled users are complete, and no companion object is left without a labelled user. */
  ghost predicate Consistent(store: map<Key, Obj>) {
    && (forall n :: IsManaged(store, n) ==> Complete(store, n))
    && (forall n, i :: 1 <= i < 4 && Link(n, i) in store ==> IsManaged(store, n))
  }

  /** Nobody else has made a user of a wanted name. */
  ghost predicate NoStrangers(store: map<Key, Obj>, wanted: set<string>) {
    forall n :: n in wanted && Link(n, 0) in store ==> IsManaged(store, n)
  }

  lemma ConsistentChained(store: map<Key, Obj>)
    requires Consistent(store)
    ensures Chained(store)
  {
    forall n, i | 1 <= i < 4 && Link(n, i) in store ensures Link(n, i - 1) in store {
      assert IsManaged(store, n);
      assert Complete(store, n);
    }
  }

  lemma ExactConverges(before: map<Key, Obj>, after: map<Key, Obj>, wanted: set<string>)
    requires Exact(before, after, wanted) && Consistent(before) && NoStrangers(before, wanted)
    ensures Consistent(after) && Managed(after) == wanted
    ensures forall n :: IsManaged(before, n) <== Link(n, 0) in before && IsManaged(after, n)
    ensures forall n :: Link(n, 0) in after && !IsManaged(after, n) ==> Link(n, 0) in before && !IsManaged(before, n)
  {
    forall n ensures IsManaged(after, n) <==> n in wanted {
    }
    forall n | IsManaged(after, n) ensures Complete(after, n) {
      assert IsManaged(before, n) ==> Complete(before, n);
    }
    forall n, i | 1 <= i < 4 && Link(n, i) in after ensures IsManaged(after, n) {
      assert Link(n, i) in before ==> IsManaged(before, n);
    }
  }

  /** Convergence: from a consistent state without strangers, a fault-free stage succeeds and leaves the labelled
      users equal to the wanted set, each complete, and nothing for anyone else. */
  lemma Converges(spec: Spec, ch: Choice, w: World)
    requires Calm(w) && Possible(spec, ch, w) && Consistent(w.store)
    requires NoStrangers(w.store, Wanted(spec.prefix, spec.users))
    ensures var a := UserStage.Stage(spec, ch, w);
            a.r == Done && Consistent(a.w.store) && Managed(a.w.store) == Wanted(spec.prefix, spec.users)
    ensures var v := UserStage.Stage(spec, ch, w).w.store;
            forall n :: Link(n, 0) in v && !IsManaged(v, n) ==> Link(n, 0) in w.store && !IsManaged(w.store, n)
  {
    ConsistentChained(w.store);
    hide UserStage.Stage, Wanted, Possible, Exact;
    CalmStage(spec, ch, w);
    ExactConverges(w.store, UserStage.Stage(spec, ch, w).w.store, Wanted(spec.prefix, spec.users));
  }

  /* ---------- The secret ---------- */

  lemma BlockAvoidsSecret(b: Plan)
    requires UserBlock(b)
    ensures PlanAvoids(b, SECRET)
  {
  }

  lemma {:induction false} BlocksAvoidSecret(blocks: seq<Plan>, i: nat, w: World)
    requires i <= |blocks| && forall j :: 0 <= j < |blocks| ==> UserBlock(blocks[j])
    ensures SameAt(w.store, Run(Flat(blocks, i), 0, w).w.store, SECRET)
    decreases |blocks| - i
  {
    hide Do;
    if i < |blocks| {
      BlockAvoidsSecret(blocks[i]);
      RunAvoids(blocks[i], 0, w, SECRET);
      RunConcat(blocks[i], Flat(blocks, i + 1), 0, w);
      BlocksAvoidSecret(blocks, i + 1, Run(blocks[i], 0, w).w);
    }
  }

  /** Only the last step of the stage sees to the secret. */
  lemma BeforeSecret(spec: Spec, ch: Choice, w: World) returns (v: World)
    ensures SameAt(w.store, v.store, SECRET) && (Calm(w) ==> Calm(v))
    ensures var a := UserStage.Stage(spec, ch, w);
            a == SecretStep(v, File(ch.lines, ch.hash), spec.users, spec.prefix) || (a.w == v && a.r != Done)
  {
    hide Do, DoList, Removals, Additions, SecretStep;
    var wanted := Wanted(spec.prefix, spec.users);
    ListKeeps(w);
    RemovalBlocks(ch.items, wanted);
    AdditionBlocks(ch.order, ch.items);
    var p, q := Flat(Removals(ch.items, wanted), 0), Flat(Additions(ch.order, ch.items), 0);
    v := Run(p, 0, DoList(w).w).w;
    BlocksAvoidSecret(Removals(ch.items, wanted), 0, DoList(w).w);
    if Calm(w) { RunCalm(p, 0, DoList(w).w); }
    if Run(p, 0, DoList(w).w).r == Done {
      AfterRemovals(spec, ch, w, v);
      BlocksAvoidSecret(Additions(ch.order, ch.items), 0, v);
      if Calm(v) { RunCalm(q, 0, v); }
      v := Run(q, 0, v).w;
      DoSecret(spec, ch, v);
    } else {
      EarlyEnd(spec, ch, w);
    }
  }

  lemma DoSecret(spec: Spec, ch: Choice, w: World)
    ensures Do(SecretFile(File(ch.lines, ch.hash), spec.users, spec.prefix), w) ==
            SecretStep(w, File(ch.lines, ch.hash), spec.users, spec.prefix)
  {
  }

  /** Under any faults, also between the secret's deletion and its re-creation, a sound secret stays sound; a
      fault-free stage that succeeds leaves it naming exactly the wanted users. */
  lemma StageSecret(spec: Spec, ch: Choice, w: World)
    requires SoundSecret(w.store, spec.prefix) && Possible(spec, ch, w) && GoodHash(spec.prefix, spec.users, ch.hash)
    ensures var a := UserStage.Stage(spec, ch, w);
            SoundSecret(a.w.store, spec.prefix)
            && (Calm(w) && a.r == Done ==> NamesExactly(a.w.store, spec.prefix, spec.users))
  {
    hide UserStage.Stage, File, GoodHash, SecretStep, Wanted;
    var v := BeforeSecret(spec, ch, w);
    assert SoundSecret(v.store, spec.prefix);
    SecretStepSound(v, ch.lines, spec.prefix, spec.users, ch.hash);
  }

  /** A fault-free stage that succeeds leaves a secret naming exactly the wanted users if and only if there was none,
      or counting the prefix in the old one gave another number, or the old one named them already. So it is the count
      that decides, and a change of prefix that leaves the count alone leaves a stale secret. */
  lemma StageSecretExact(spec: Spec, ch: Choice, w: World)
    requires Calm(w) && Possible(spec, ch, w) && Readable(spec.prefix, spec.users, ch.hash)
    requires UserStage.Stage(spec, ch, w).r == Done
    ensures NamesExactly(UserStage.Stage(spec, ch, w).w.store, spec.prefix, spec.users) <==>
            Refreshed(w.store, spec.prefix, spec.users) || NamesExactly(w.store, spec.prefix, spec.users)
    ensures !Refreshed(w.store, spec.prefix, spec.users) ==>
        SameAt(w.store, UserStage.Stage(spec, ch, w).w.store, SECRET)
  {
    hide UserStage.Stage, File, Readable, SecretStep, Wanted, Ordering;
    var v := BeforeSecret(spec, ch, w);
    SecretNamesWhen(v, ch.lines, spec.prefix, spec.users, ch.hash);
    SecretReplaced(v, File(ch.lines, ch.hash), spec.users, spec.prefix);
  }

  /** A further fault-free run of the secret step would leave what is stored. */
  ghost predicate SecretSettled(store: map<Key, Obj>, prefix: string, total: int) {
    SECRET in store && if total < 0 then store[SECRET] == Text("") else Occurrences(store[SECRET], prefix) == total
  }

  lemma SecretSettles(w: World, order: seq<string>, prefix: string, total: int, hash: string -> string)
    requires Calm(w) && Ordering(order, Wanted(prefix, total)) && GoodHash(prefix, total, hash)
    ensures SecretSettled(SecretStep(w, File(order, hash), total, prefix).w.store, prefix, total)
    ensures SecretSettled(w.store, prefix, total) ==> SecretStep(w, File(order, hash), total, prefix).w.store == w.store
  {
    var text := File(order, hash);
    FreshFile(order, prefix, total, hash);
    WantedSize(prefix, total);
    OrderingSize(order, Wanted(prefix, total));
    if SECRET in w.store {
      SecretKeptExactly(w, text, total, prefix);
    } else {
      CreateFacts(w, SECRET, Text(text));
    }
  }

  /* ---------- Fixpoint ---------- */

  /** What an exact stage leaves: every labelled user is wanted, and every wanted user without a label is complete. */
  lemma ExactLeaves(before: map<Key, Obj>, after: map<Key, Obj>, wanted: set<string>)
    requires Exact(before, after, wanted)
    ensures forall n :: IsManaged(after, n) ==> n in wanted
    ensures forall n :: n in wanted && !IsManaged(after, n) ==> Complete(after, n)
  {
    forall n | n in wanted && !IsManaged(after, n) ensures Complete(after, n) {
      assert !IsManaged(before, n);
      assert forall i :: 0 <= i < 4 ==> (Link(n, i) in after <==> Link(n, i) in before || !IsManaged(before, n));
    }
  }

  /** The users of a store need no further work: nobody is to be removed, and nobody to be completed. */
  ghost predicate UsersSettled(store: map<Key, Obj>, wanted: set<string>) {
    && (forall n :: IsManaged(store, n) ==> n in wanted)
    && (forall n :: n in wanted && !IsManaged(store, n) ==> Complete(store, n))
  }

  lemma SameSettled(a: map<Key, Obj>, b: map<Key, Obj>, wanted: set<string>)
    requires UsersSettled(a, wanted) && forall n, i :: 0 <= i < 4 ==> SameAt(a, b, Link(n, i))
    ensures UsersSettled(b, wanted)
  {
    forall n ensures IsManaged(b, n) <==> IsManaged(a, n) {
      assert SameAt(a, b, Link(n, 0));
    }
    forall n | n in wanted && !IsManaged(b, n) ensures Complete(b, n) {
      assert Complete(a, n);
      assert forall i :: 0 <= i < 4 ==> SameAt(a, b, Link(n, i));
    }
  }

  lemma AddedComplete(before: map<Key, Obj>, after: map<Key, Obj>, names: set<string>)
    requires Added(before, after, names) && forall n :: n in names ==> Complete(before, n)
    ensures after == before
  {
    forall n | n in names ensures Links(n) <= before.Keys {
      assert Complete(before, n);
      assert forall i :: 0 <= i < 4 ==> Link(n, i) in before;
    }
    hide Links;
  }

  /** When the users are settled, a fault-free stage changes nothing before the secret. */
  lemma OnlySecret(spec: Spec, ch: Choice, w: World) returns (v: World)
    requires Calm(w) && Possible(spec, ch, w) && Chained(w.store)
    requires UsersSettled(w.store, Wanted(spec.prefix, spec.users))
    ensures Calm(v) && v.store == w.store
    ensures UserStage.Stage(spec, ch, w) == SecretStep(v, File(ch.lines, ch.hash), spec.users, spec.prefix)
  {
    hide Do, Run, Flat, DoList, SecretStep, Removals, Additions, Managed, IsManaged, Wanted, Complete, Added,
         Chained;
    var wanted := Wanted(spec.prefix, spec.users);
    ListKeeps(w);
    assert Ordering(ch.items, Managed(w.store)) && Ordering(ch.order, wanted);
    StaleAndMissing(ch.items, ch.order, w.store, wanted);
    CalmRemovals(ch.items, wanted, 0, DoList(w).w);
    var a := Run(Flat(Removals(ch.items, wanted), 0), 0, DoList(w).w);
    assert StaleFrom(ch.items, wanted, 0) == {};
    assert LinksOf({}) == {};
    assert a.w.store == w.store;
    AfterRemovals(spec, ch, w, a.w);
    CalmAdditions(ch.order, ch.items, 0, a.w);
    var b := Run(Flat(Additions(ch.order, ch.items), 0), 0, a.w);
    AddedComplete(a.w.store, b.w.store, MissingFrom(ch.order, ch.items, 0));
    v := b.w;
    DoSecret(spec, ch, v);
  }

  /** Fixpoint of the user stage: a fault-free stage that succeeds, and then another with the same spec, leave the
      store as the first one left it, with whatever orders and salted hashes. Users left half created by earlier
      faults and other people's users of wanted names make no difference. */
  lemma StageFixpoint(spec: Spec, ch: Choice, w: World, ch2: Choice, w2: World)
    requires Calm(w) && Possible(spec, ch, w) && Chained(w.store) && GoodHash(spec.prefix, spec.users, ch.hash)
    requires UserStage.Stage(spec, ch, w).r == Done
    requires Calm(w2) && Possible(spec, ch2, w2) && GoodHash(spec.prefix, spec.users, ch2.hash)
    requires var v := UserStage.Stage(spec, ch, w).w.store;
             SameAt(v, w2.store, SECRET) && forall n, i :: 0 <= i < 4 ==> SameAt(v, w2.store, Link(n, i))
    ensures UserStage.Stage(spec, ch2, w2).r == Done && UserStage.Stage(spec, ch2, w2).w.store == w2.store
  {
    hide UserStage.Stage, Possible, GoodHash, Wanted, SecretStep, Chained, Exact, File;
    var v, wanted := UserStage.Stage(spec, ch, w).w.store, Wanted(spec.prefix, spec.users);
    CalmStage(spec, ch, w);
    StageChained(spec, ch, w);
    SameChains(v, w2.store);
    ExactLeaves(w.store, v, wanted);
    SameSettled(v, w2.store, wanted);
    FirstSettles(spec, ch, w);
    var u := OnlySecret(spec, ch2, w2);
    SecondKeeps(spec, ch2, w2, u);
  }

  lemma FirstSettles(spec: Spec, ch: Choice, w: World)
    requires Calm(w) && Possible(spec, ch, w) && GoodHash(spec.prefix, spec.users, ch.hash)
    requires UserStage.Stage(spec, ch, w).r == Done
    ensures SecretSettled(UserStage.Stage(spec, ch, w).w.store, spec.prefix, spec.users)
  {
    hide UserStage.Stage, GoodHash, SecretStep, File;
    var v := BeforeSecret(spec, ch, w);
    SecretSettles(v, ch.lines, spec.prefix, spec.users, ch.hash);
  }

  lemma SecondKeeps(spec: Spec, ch: Choice, w: World, v: World)
    requires Calm(v) && Possible(spec, ch, w) && GoodHash(spec.prefix, spec.users, ch.hash)
    requires SecretSettled(v.store, spec.prefix, spec.users)
    ensures var a := SecretStep(v, File(ch.lines, ch.hash), spec.users, spec.prefix);
            a.r == Done && a.w.store == v.store
  {
    SecretSettles(v, ch.lines, spec.prefix, spec.users, ch.hash);
    CalmSecretDone(v, File(ch.lines, ch.hash), spec.users, spec.prefix);
  }

  lemma CalmSecretDone(w: World, text: string, total: int, prefix: string)
    requires Calm(w)
    ensures SecretStep(w, text, total, prefix).r == Done
  {
    var c := DoCreate(w, SECRET, Text(text));
    CreateFacts(w, SECRET, Text(text));
    var g := DoGet(c.w, SECRET);
    GetFacts(c.w, SECRET);
    var d := DoDelete(g.w, SECRET);
    DeleteFacts(g.w, SECRET);
    CreateFacts(d.w, SECRET, Text(text));
  }
}
