/** Concrete inputs on which natural expectations of the operator fail. */
module Failures {
  import opened World
  import opened Steps
  import opened Plans
  import opened Htpasswd
  import opened Accounts
  import opened Convergence
  import opened Reconcile
  import opened Runs
  import opened UserRuns
  import opened Strings = Text
  import UserStage

  /* ---------- A user half created by one lost call ---------- */

  const CLEAN := Tick([], Clean, [])
  const LOST := Tick([], Lost, [])

  /** An empty cluster: the list and the first create succeed, the create of the role binding is lost. */
  const BROKEN := World(map[], None, map[], map[], map[], [CLEAN, CLEAN, LOST], [])

  function HalfStore(): map<Key, Obj> {
    map[Link("user1", 0) := Account(true)]
  }

  lemma OneWanted()
    ensures Wanted("user", 1) == {"user1"} && Wanted("user", 0) == {}
  {
    assert Dec(1) == "1" && Name("user", 1) == "user1";
    forall n ensures n in Wanted("user", 1) <==> n == "user1" {
      if n in Wanted("user", 1) {
        var id: nat :| 1 <= id <= 1 && n == Name("user", id);
        assert id == 1;
      }
    }
  }

  /** The two calls of the broken stage that matter. */
  lemma BrokenAdd(w: World)
    requires w.store == map[] && w.script == [CLEAN, LOST]
    ensures var a := Run(UserStage.AddBlock("user1"), 0, w);
            a.r == Failed && a.w.store == HalfStore() && a.w.script == []
  {
    var p := UserStage.AddBlock("user1");
    var a := Do(p[0], w);
    RunNext(p, 0, w);
    assert a.r == Done && a.w.store == HalfStore() && a.w.script == [LOST] by { FirstCreate(w); }
    var b := Do(p[1], a.w);
    RunNext(p, 1, a.w);
    assert b.r == Failed && b.w.store == HalfStore() && b.w.script == [] by { LostCreate(a.w); }
  }

  lemma FirstCreate(w: World)
    requires w.store == map[] && w.script == [CLEAN, LOST]
    ensures var a := Do(EnsureStep(UserKey("user1"), Account(true)), w);
            a.r == Done && a.w.store == HalfStore() && a.w.script == [LOST]
  {
    assert [CLEAN, LOST][1..] == [LOST];
  }

  lemma LostCreate(w: World)
    requires w.store == HalfStore() && w.script == [LOST]
    ensures var a := Do(EnsureStep(UserStage.Binding("user1"), Names(["user1"])), w);
            a.r == Failed && a.w.store == HalfStore() && a.w.script == []
  {
    assert [LOST][1..] == [];
  }

  /** The broken stage leaves a labelled user without any companion. */
  lemma BrokenStage(spec: Spec, hash: string -> string)
    requires spec.prefix == "user" && spec.users == 1
    ensures var ch := UserStage.Choice([], ["user1"], ["user1"], hash); var a := UserStage.Stage(spec, ch, BROKEN);
            UserStage.Possible(spec, ch, BROKEN) && a.r == Failed && a.w.store == HalfStore() && a.w.script == []
  {
    var ch := UserStage.Choice([], ["user1"], ["user1"], hash);
    var l := DoList(BROKEN);
    OneWanted();
    assert [CLEAN, CLEAN, LOST][1..] == [CLEAN, LOST];
    assert l.out == Ok && l.w.store == map[] && l.w.script == [CLEAN, LOST];
    assert Managed(l.w.store) == {};
    hide Do, Run, DoList;
    assert Flat(UserStage.Removals([], Wanted("user", 1)), 0) == [];
    assert Flat(UserStage.Additions(["user1"], []), 0) == UserStage.AddBlock("user1") + [];
    UserStage.Nothing(l.w);
    UserStage.AfterRemovals(spec, ch, BROKEN, l.w);
    assert UserStage.AddBlock("user1") + [] == UserStage.AddBlock("user1");
    BrokenAdd(l.w);
  }

  lemma HalfFacts()
    ensures Chained(HalfStore()) && !Complete(HalfStore(), "user1")
    ensures forall n :: IsManaged(HalfStore(), n) <==> n == "user1"
  {
    forall n, i | 0 <= i < 4 ensures Link(n, i) in HalfStore() <==> n == "user1" && i == 0 {
      LinkInjective(n, i, "user1", 0);
    }
    assert Link("user1", 1) !in HalfStore();
    forall n ensures IsManaged(HalfStore(), n) <==> n == "user1" {
      assert UserKey(n) == Link(n, 0);
    }
  }

  /** From the lost call on: the next fault-free stage succeeds and leaves the user as it is, and when the user is no
      longer wanted every fault-free stage fails on it, whatever the list and map orders. */
  lemma HalfCreatedForever(spec: Spec, hash: string -> string, w: World, ch: UserStage.Choice, w2: World,
      ch2: UserStage.Choice)
    requires spec.prefix == "user" && spec.users == 1
    requires var broken := UserStage.Choice([], ["user1"], ["user1"], hash);
             w == UserStage.Stage(spec, broken, BROKEN).w && UserStage.Possible(spec, ch, w)
    requires w2 == UserStage.Stage(spec, ch, w).w.(script := []) && UserStage.Possible(spec.(users := 0), ch2, w2)
    ensures UserStage.Stage(spec, ch, w).r == Done && IsManaged(w2.store, "user1") && !Complete(w2.store, "user1")
    ensures UserStage.Stage(spec.(users := 0), ch2, w2).r != Done
  {
    BrokenStage(spec, hash);
    HalfFacts();
    OneWanted();
    hide UserStage.Stage, UserStage.Possible, HalfStore, Chained, Complete, IsManaged, Link, Wanted;
    assert StaleComplete(w.store, Wanted("user", 1));
    CalmStage(spec, ch, w);
    HalfCreatedStays(spec, ch, w, "user1");
    StageChained(spec, ch, w);
    CalmStage(spec.(users := 0), ch2, w2);
    assert "user1" !in Wanted("user", 0);
  }

  /* ---------- A secret left stale by a change of prefix ---------- */

  /** One user of the prefix "user", complete, with the file for it; the spec has moved on to the prefix "use". */
  function Renamed(spec: Spec, hash: string -> string): World {
    World(map[Link("user1", 0) := Account(true), Link("user1", 1) := Bare, Link("user1", 2) := Bare,
              Link("user1", 3) := Bare, SECRET := Text(File(["user1"], hash))],
          Some(Resource(spec, [FINALIZER], false, 1)), map[], map[], map[], [], [])
  }

  lemma RenamedFacts(spec: Spec, hash: string -> string)
    requires hash("user1") == "x"
    ensures var w := Renamed(spec, hash);
            && Chained(w.store) && Complete(w.store, "user1") && (forall n :: IsManaged(w.store, n) <==> n == "user1")
            && Link("use1", 0) !in w.store
            && w.store[SECRET] == Text(File(["user1"], hash))
  {
    var w := Renamed(spec, hash);
    forall n, i | 0 <= i < 4 ensures Link(n, i) in w.store <==> n == "user1" {
      forall j | 0 <= j < 4 { LinkInjective(n, i, "user1", j); }
    }
    forall i, j | 0 <= i < j < 4 ensures Link("user1", i) != Link("user1", j) { LinkInjective("user1", i, "user1", j); }
    forall n ensures IsManaged(w.store, n) <==> n == "user1" {
      assert UserKey(n) == Link(n, 0);
      LinkInjective(n, 0, "user1", 0);
    }
    LinkInjective("use1", 0, "user1", 0);
    assert forall i :: 0 <= i < 4 ==> Link("user1", i) != SECRET by {
      forall i | 0 <= i < 4 ensures Link("user1", i) != SECRET { LinkInjective("user1", i, "user1", i); }
    }
  }

  lemma RenamedStart(spec: Spec, hash: string -> string)
    ensures var w := Renamed(spec, hash);
            Calm(w) && BuildStart(w).Some? && BuildStart(w).value.0 == spec
  {
    var w := Renamed(spec, hash);
    var g := DoGetWorkshop(w);
    assert g.out == Ok && g.w.cr == w.cr && g.w.script == [];
    var s := Foreign(g.w, "console");
    assert s.r == Done && s.w.cr == w.cr;
    hide DoGetWorkshop, Foreign;
    assert Arm(g.w.cr.value, s.w) == Answer(s.w, Done);
  }

  lemma OneRenamed()
    ensures Wanted("use", 1) == {"use1"}
  {
    assert Dec(1) == "1" && Name("use", 1) == "use1";
    forall n ensures n in Wanted("use", 1) <==> n == "use1" {
      if n in Wanted("use", 1) {
        var id: nat :| 1 <= id <= 1 && n == Name("use", id);
        assert id == 1;
      }
    }
  }

  /** A whole fault-free pass replaces user1 by use1 and keeps a secret that names user1: in it "use" occurs once. */
  lemma StaleAfterPrefixChange(spec: Spec, hash: string -> string, ch: Choice)
    requires spec.prefix == "use" && spec.users == 1 && hash("user1") == "x"
    requires Possible(Renamed(spec, hash), ch) && Readable("use", 1, ch.users.hash)
    ensures var v := Pass(Renamed(spec, hash), ch).w.store;
            && IsManaged(v, "use1") && !IsManaged(v, "user1")
            && SECRET in v && v[SECRET].Text? && FileNames(v[SECRET].text) == ["user1"]
  {
    var w := Renamed(spec, hash);
    RenamedFacts(spec, hash);
    RenamedStart(spec, hash);
    OneUser(hash);
    OneRenamed();
    hide Pass, BuildStart, Reconcile.Possible, Readable, Chained, Complete, IsManaged, Link, Wanted, File, FileNames,
         Count;
    assert StaleComplete(w.store, Wanted("use", 1));
    assert !Refreshed(w.store, "use", 1);
    PassSecretExact(w, ch);
  }
}
