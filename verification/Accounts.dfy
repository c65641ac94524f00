/** What the user stage keeps and what it achieves: chains of companion objects, convergence, and the secret. */
module Accounts {
  import opened World
  import opened Steps
  import opened Plans
  import opened Htpasswd
  import opened UserStage
  import opened Frame

  /* ---------- The chain of a user's objects ---------- */

  /** User, role binding, identity, mapping: each is there for the sake of the one before. */
  function Link(name: string, i: nat): Key
    requires i < 4
  {
    if i == 0 then UserKey(name)
    else if i == 1 then Binding(name)
    else if i == 2 then IdentityKey(name)
    else MappingKey(name)
  }

  lemma LinkInjective(a: string, i: nat, b: string, j: nat)
    requires i < 4 && j < 4
    ensures Link(a, i) == Link(b, j) <==> a == b && i == j
    ensures Link(a, i) != SECRET
  {
    assert (PROVIDER + a)[|PROVIDER|..] == a;
    assert (PROVIDER + b)[|PROVIDER|..] == b;
  }

  /** Every user's objects form a prefix of the chain, so no companion object exists without its user. */
  ghost predicate Chained(store: map<Key, Obj>) {
    forall n, i :: 1 <= i < 4 && Link(n, i) in store ==> Link(n, i - 1) in store
  }

  ghost predicate Complete(store: map<Key, Obj>, name: string) {
    forall i :: 0 <= i < 4 ==> Link(name, i) in store
  }

  lemma SameChains(a: map<Key, Obj>, b: map<Key, Obj>)
    requires Chained(a) && forall n, i :: 0 <= i < 4 ==> SameAt(a, b, Link(n, i))
    ensures Chained(b)
  {
    forall n, i | 1 <= i < 4 && Link(n, i) in b ensures Link(n, i - 1) in b {
      assert SameAt(a, b, Link(n, i)) && SameAt(a, b, Link(n, i - 1));
    }
  }

  lemma LastLink(store: map<Key, Obj>, name: string)
    requires Chained(store)
    ensures Complete(store, name) <==> Link(name, 3) in store
  {
    if Link(name, 3) in store {
      assert Link(name, 2) in store;
      assert Link(name, 1) in store;
      assert Link(name, 0) in store;
    }
  }

  lemma PutChained(name: string, i: nat, o: Obj, w: World)
    requires i < 4 && Chained(w.store) && (i > 0 ==> Link(name, i - 1) in w.store)
    ensures var a := EnsureKey(w, Link(name, i), o);
            Chained(a.w.store) && (forall k :: k in w.store ==> k in a.w.store)
                && (a.r == Done ==> Link(name, i) in a.w.store)
  {
    hide DoCreate, Link;
    CreateFacts(w, Link(name, i), o);
    var a := EnsureKey(w, Link(name, i), o);
    forall n, j | 1 <= j < 4 && Link(n, j) in a.w.store ensures Link(n, j - 1) in a.w.store {
      LinkInjective(n, j, name, i);
    }
  }

  lemma TakeChained(name: string, i: nat, w: World)
    requires i < 4 && Chained(w.store) && (i < 3 ==> Link(name, i + 1) !in w.store)
    ensures var a := RemoveKey(w, Link(name, i));
            Chained(a.w.store) && (forall k :: k in a.w.store ==> k in w.store)
                && (a.r == Done ==> Link(name, i) !in a.w.store)
  {
    hide DoDelete, Link;
    DeleteFacts(w, Link(name, i));
    var a := RemoveKey(w, Link(name, i));
    forall n, j | 1 <= j < 4 && Link(n, j) in a.w.store ensures Link(n, j - 1) in a.w.store {
      LinkInjective(n, j - 1, name, i);
      assert Link(n, j) in w.store;
    }
  }

  function Level(i: nat): nat {
    if i <= 2 then i else i - 1
  }

  lemma {:induction false} AddChained(name: string, i: nat, w: World)
    requires i <= 5 && Chained(w.store) && forall j :: 0 <= j < Level(i) ==> Link(name, j) in w.store
    ensures Chained(Run(AddBlock(name), i, w).w.store)
    decreases 5 - i
  {
    if i < 5 {
      var s := AddBlock(name)[i];
      if i == 2 {
        GetFacts(w, UserKey(name));
      } else {
        var o := if i == 0 then Account(true) else if i == 1 then Names([name]) else Bare;
        assert s == EnsureStep(Link(name, Level(i)), o);
        PutChained(name, Level(i), o, w);
      }
      hide Do, Link, EnsureKey;
      var a := Do(s, w);
      if a.r == Done {
        AddChained(name, i + 1, a.w);
      }
    }
  }

  lemma {:induction false} RemoveChained(name: string, i: nat, w: World)
    requires i <= 5 && Chained(w.store) && forall j :: 5 - i <= j < 4 ==> Link(name, j) !in w.store
    ensures Chained(Run(RemoveBlock(name), i, w).w.store)
    decreases 5 - i
  {
    if i < 5 {
      var s := RemoveBlock(name)[i];
      if i == 0 {
        GetFacts(w, UserKey(name));
      } else {
        assert s == RemoveStep(Link(name, 4 - i));
        TakeChained(name, 4 - i, w);
      }
      hide Do, Link, RemoveKey;
      var a := Do(s, w);
      if a.r == Done {
        RemoveChained(name, i + 1, a.w);
      }
    }
  }

  /** A block of the user stage. */
  ghost predicate UserBlock(b: Plan) {
    b == [] || exists n :: b == AddBlock(n) || b == RemoveBlock(n)
  }

  lemma BlockChained(b: Plan, w: World)
    requires UserBlock(b) && Chained(w.store)
    ensures Chained(Run(b, 0, w).w.store)
  {
    if b != [] {
      var n :| b == AddBlock(n) || b == RemoveBlock(n);
      AddChained(n, 0, w);
      RemoveChained(n, 0, w);
    }
  }

  lemma {:induction false} BlocksChained(blocks: seq<Plan>, i: nat, w: World)
    requires i <= |blocks| && Chained(w.store) && forall j :: 0 <= j < |blocks| ==> UserBlock(blocks[j])
    ensures Chained(Run(Flat(blocks, i), 0, w).w.store)
    decreases |blocks| - i
  {
    hide Do;
    if i < |blocks| {
      BlockChained(blocks[i], w);
      RunConcat(blocks[i], Flat(blocks, i + 1), 0, w);
      BlocksChained(blocks, i + 1, Run(blocks[i], 0, w).w);
    }
  }

  lemma SecretChained(w: World, text: string, total: int, prefix: string)
    requires Chained(w.store)
    ensures Chained(SecretStep(w, text, total, prefix).w.store)
  {
    var v := SecretStep(w, text, total, prefix).w;
    forall n, i | 0 <= i < 4 ensures Link(n, i) in v.store <==> Link(n, i) in w.store {
      LinkInjective(n, i, n, i);
      SecretAvoids(w, text, total, prefix, Link(n, i));
    }
  }

  lemma ListKeeps(w: World)
    ensures DoList(w).w.store == w.store && Tame(w, DoList(w).w)
    ensures Calm(w) ==> DoList(w).out == Ok && Calm(DoList(w).w)
  {
    ReadFacts(w, Verb.List, USERS, Ok);
    PopFacts(w);
  }

  lemma RemovalBlocks(items: seq<string>, wanted: set<string>)
    ensures forall j :: 0 <= j < |Removals(items, wanted)| ==> UserBlock(Removals(items, wanted)[j])
  {
  }

  lemma AdditionBlocks(order: seq<string>, items: seq<string>)
    ensures forall j :: 0 <= j < |Additions(order, items)| ==> UserBlock(Additions(order, items)[j])
  {
  }

  /** Under faults at any call, and whatever the list and the maps yield, the stage keeps every user's objects a
      prefix of the chain. */
  lemma StageChained(spec: Spec, ch: Choice, w: World)
    requires Chained(w.store)
    ensures Chained(UserStage.Stage(spec, ch, w).w.store)
  {
    hide Do, DoList, Removals, Additions, Chained;
    var wanted := Wanted(spec.prefix, spec.users);
    ListKeeps(w);
    RemovalBlocks(ch.items, wanted);
    AdditionBlocks(ch.order, ch.items);
    var a := Run(Flat(Removals(ch.items, wanted), 0), 0, DoList(w).w);
    BlocksChained(Removals(ch.items, wanted), 0, DoList(w).w);
    if a.r == Done {
      AfterRemovals(spec, ch, w, a.w);
      var b := Run(Flat(Additions(ch.order, ch.items), 0), 0, a.w);
      BlocksChained(Additions(ch.order, ch.items), 0, a.w);
      SecretDo(b.w, spec, ch);
    } else {
      EarlyEnd(spec, ch, w);
    }
  }

  lemma SecretDo(w: World, spec: Spec, ch: Choice)
    ensures Chained(w.store) ==> Chained(Do(SecretFile(File(ch.lines, ch.hash), spec.users, spec.prefix), w).w.store)
  {
    if Chained(w.store) {
      SecretChained(w, File(ch.lines, ch.hash), spec.users, spec.prefix);
    }
  }

  /** So does the removal of all users when the workshop is deleted. */
  lemma DeleteChained(items: seq<string>, w: World)
    requires Chained(w.store)
    ensures Chained(Run(DeletePlan(items), 0, w).w.store)
  {
    hide Do, AllRemovals;
    var tail := [RemoveStep(SECRET)];
    RunConcat(Flat(AllRemovals(items), 0), tail, 0, w);
    RemovalsAreBlocks(items);
    BlocksChained(AllRemovals(items), 0, w);
    var v := Run(Flat(AllRemovals(items), 0), 0, w).w;
    OneStep(RemoveStep(SECRET), v);
    SecretGone(v);
  }

  lemma RemovalsAreBlocks(items: seq<string>)
    ensures forall j :: 0 <= j < |AllRemovals(items)| ==> UserBlock(AllRemovals(items)[j])
  {
  }

  lemma SecretGone(w: World)
    requires Chained(w.store)
    ensures Chained(Do(RemoveStep(SECRET), w).w.store)
  {
    DeleteFacts(w, SECRET);
    var v := Do(RemoveStep(SECRET), w).w;
    forall n, i | 0 <= i < 4 ensures Link(n, i) in v.store <==> Link(n, i) in w.store {
      LinkInjective(n, i, n, i);
    }
  }
}
