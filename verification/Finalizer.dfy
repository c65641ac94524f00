/** The finalizer protocol of a pass, with deletion marks and edits between any two calls and any call failing. */
module Finalizer {
  import opened World
  import opened Steps
  import opened Plans
  import opened Accounts
  import opened Reconcile
  import Htpasswd
  import UserStage

  /* ---------- The calls on the Workshop ---------- */

  lemma GetWorkshopFacts(w: World)
    ensures var g := DoGetWorkshop(w);
            Ordinary(w, g.w) && NoCreates(w, g.w) && g.w.store == w.store && (g.out == Ok ==> g.w.cr.Some?)
  {
    PopFacts(w);
    ReadFacts(w, Verb.Get, WORKSHOP, if Pop(w).cr.Some? then Ok else NotFound);
  }

  lemma ConsoleFacts(w: World, name: string)
    ensures var a := Foreign(w, name);
            Ordinary(w, a.w) && NoCreates(w, a.w) && a.w.store == w.store
  {
    PopFacts(w);
    ReadFacts(w, Verb.Watch, Key(Workshop, "", name), Ok);
  }

  /** History only grows and approvals stay. */
  ghost predicate Monotone(w: World, v: World) {
    && w.trail <= v.trail
    && forall p :: p in w.plans ==>
         p in v.plans && v.plans[p].csvs == w.plans[p].csvs && (w.plans[p].approved ==> v.plans[p].approved)
  }

  lemma SettleCr(w: World, cr: Option<Resource>, out: Outcome)
    ensures var v := Pop(w);
            var u := Settle(v, v.(cr := cr), Update, WORKSHOP, out, Next(w).fault);
            Monotone(w, u.w) && NoCreates(w, u.w) && u.w.store == w.store
  {
    PopFacts(w);
    var v := Pop(w);
    assert Monotone(w, v) && NoCreates(w, v);
    hide Pop, Next;
    var u := Settle(v, v.(cr := cr), Update, WORKSHOP, out, Next(w).fault);
    assert u.w.trail == v.trail + [Called(Update, WORKSHOP, u.out, Armed(u.w))];
  }

  lemma UpdateWorkshopTrail(w: World, copy: Resource)
    ensures var u := DoUpdateWorkshop(w, copy);
            Monotone(w, u.w) && NoCreates(w, u.w) && u.w.store == w.store
  {
    var v := Pop(w);
    assert v.(cr := v.cr) == v;
    SettleCr(w, v.cr, NotFound);
    SettleCr(w, v.cr, OtherError);
    if v.cr.Some? {
      var stored := v.cr.value.(finalizers := copy.finalizers, version := copy.version + 1);
      SettleCr(w, if stored.marked && stored.finalizers == [] then None else Some(stored), Ok);
    }
    hide Pop, Next, Settle, Log, Monotone, NoCreates;
  }

  /** The copy is stored when nobody has changed the Workshop since it was read; otherwise nothing changes. */
  lemma UpdateWorkshopCr(w: World, copy: Resource)
    ensures var v, u := Pop(w), DoUpdateWorkshop(w, copy);
            && (u.w.cr == v.cr ||
                (v.cr.Some? && v.cr.value.version == copy.version
                 && if v.cr.value.marked && copy.finalizers == [] then u.w.cr == None
                    else u.w.cr == Some(v.cr.value.(finalizers := copy.finalizers, version := copy.version + 1))))
            && (u.out == Ok ==> v.cr.Some? && v.cr.value.version == copy.version && u.w.cr != v.cr)
  {
  }

  lemma UpdateWorkshopFacts(w: World, copy: Resource)
    ensures var u := DoUpdateWorkshop(w, copy);
            && Monotone(w, u.w) && NoCreates(w, u.w) && u.w.store == w.store
            && (u.out == Ok ==> Pop(w).cr.Some? && Pop(w).cr.value.version == copy.version)
            && (u.out == Ok && u.w.cr.Some? ==> u.w.cr.value.finalizers == copy.finalizers)
            && (u.out == Ok && u.w.cr.None? ==> copy.finalizers == [])
            && (Armed(w) && FINALIZER in copy.finalizers ==> Armed(u.w))
            && (u.w.cr.Some? ==> w.cr.Some? && (w.cr.value.marked ==> u.w.cr.value.marked))
            && (Armed(u.w) ==> Armed(w) || FINALIZER in copy.finalizers)
  {
    PopFacts(w);
    UpdateWorkshopTrail(w, copy);
    UpdateWorkshopCr(w, copy);
    hide DoUpdateWorkshop, Monotone, NoCreates, Pop;
  }

  /* ---------- History of the parts of a pass ---------- */

  lemma UserStageFollows(spec: Spec, ch: UserStage.Choice, w: World)
    ensures Follows(w, UserStage.Stage(spec, ch, w).w)
  {
    hide DoList, UserStage.UserPlan;
    ListKeeps(w);
    RunFollows(UserStage.UserPlan(spec, ch), 0, DoList(w).w);
    FollowsTrans(w, DoList(w).w, UserStage.Stage(spec, ch, w).w);
  }

  lemma BuildFollows(spec: Spec, ch: Choice, w: World)
    ensures Follows(w, Build(spec, ch, w).w)
  {
    hide UserStage.Stage, MainPlan, Run;
    var u := UserStage.Stage(spec, ch.users, w);
    UserStageFollows(spec, ch.users, w);
    if u.r == Done {
      RunFollows(MainPlan(spec, ch.guides), 0, u.w);
      FollowsTrans(w, u.w, Build(spec, ch, w).w);
    }
  }

  /** Reading the Workshop and the console route: no change but what others do. */
  lemma OpeningFacts(w: World)
    ensures var g := DoGetWorkshop(w); var s := Foreign(g.w, "console");
            Ordinary(w, g.w) && Ordinary(w, s.w) && NoCreates(w, g.w) && NoCreates(w, s.w)
            && g.w.store == w.store && s.w.store == w.store
  {
    hide DoGetWorkshop, Foreign;
    var g := DoGetWorkshop(w);
    GetWorkshopFacts(w);
    ConsoleFacts(g.w, "console");
    OrdinaryTrans(w, g.w, Foreign(g.w, "console").w);
  }

  /* ---------- Deletion only takes away ---------- */

  ghost predicate AllTaking(p: Plan) {
    forall j :: 0 <= j < |p| ==> Taking(p[j])
  }

  lemma {:induction false} FlatTaking(blocks: seq<Plan>, i: nat)
    requires i <= |blocks| && forall j :: 0 <= j < |blocks| ==> AllTaking(blocks[j])
    ensures AllTaking(Flat(blocks, i))
    decreases |blocks| - i
  {
    if i < |blocks| {
      FlatTaking(blocks, i + 1);
    }
  }

  lemma TearTaking(spec: Spec)
    ensures AllTaking(TearPlan(spec))
  {
    FlatTaking(TearStages(spec), 0);
  }

  lemma DeleteTaking(items: seq<string>)
    ensures AllTaking(UserStage.DeletePlan(items))
  {
    FlatTaking(UserStage.AllRemovals(items), 0);
  }

  lemma ListVerb(w: World)
    ensures NoCreates(w, DoList(w).w)
  {
    PopFacts(w);
    assert Pop(w).(store := w.store) == Pop(w);
    CallVerb(w, w.store, Verb.List, USERS, Ok);
  }

  /** Whatever it meets, the teardown creates nothing, and leaves the Workshop to others. */
  lemma TeardownTakes(spec: Spec, ch: Choice, w: World)
    ensures var d := Teardown(spec, ch, w);
            NoCreates(w, d.w) && Follows(w, d.w) && CrKept(w, d.w)
  {
    hide DoList, UserStage.DeletePlan, TearPlan, Run;
    var p, q := UserStage.DeletePlan(ch.listed), TearPlan(spec);
    var l := DoList(w).w;
    ListVerb(w);
    ListKeeps(w);
    DeleteTaking(ch.listed);
    TearTaking(spec);
    var u := Run(p, 0, l);
    RunTaking(p, 0, l);
    RunFollows(p, 0, l);
    RunCr(p, 0, l);
    FollowsTrans(w, l, u.w);
    CrKeptTrans(w, l, u.w);
    if u.r == Done {
      var d := Run(q, 0, u.w);
      RunTaking(q, 0, u.w);
      RunFollows(q, 0, u.w);
      RunCr(q, 0, u.w);
      FollowsTrans(w, u.w, d.w);
      CrKeptTrans(w, u.w, d.w);
    }
  }

  /* ---------- The protocol ---------- */

  /** The pass read a Workshop marked for deletion. */
  ghost predicate SawMark(w: World) {
    var g := DoGetWorkshop(w);
    g.out == Ok && g.w.cr.Some? && g.w.cr.value.marked && Foreign(g.w, "console").r == Done
  }

  /** The pass read it with the finalizer on it, and so called handleDelete. */
  ghost predicate Deletes(w: World) {
    SawMark(w) && FINALIZER in DoGetWorkshop(w).w.cr.value.finalizers
  }

  /** Every create of the stretch was made while the stored Workshop carried the finalizer. */
  ghost predicate CreatesArmed(w: World, v: World) {
    w.trail <= v.trail
    && forall i :: |w.trail| <= i < |v.trail| && v.trail[i].Called? && v.trail[i].verb == Create ==> v.trail[i].armed
  }

  lemma CreatesArmedThen(u: World, v: World, w: World)
    requires CreatesArmed(u, v) && CreatesArmed(v, w)
    ensures CreatesArmed(u, w)
  {
  }

  lemma FinalizeFacts(copy: Resource, ch: Choice, w: World)
    ensures var a := Finalize(copy, ch, w);
            && NoCreates(w, a.w) && Monotone(w, a.w)
            && (a.r == Done ==> !Armed(a.w))
            && (a.w.cr.Some? ==> w.cr.Some? && (w.cr.value.marked ==> a.w.cr.value.marked))
            && (Armed(a.w) ==> Armed(w))
  {
    hide Teardown, DoUpdateWorkshop;
    var d := Teardown(copy.spec, ch, w);
    TeardownTakes(copy.spec, ch, w);
    UpdateWorkshopFacts(d.w, copy.(finalizers := Dropped(copy.finalizers)));
    DroppedGone(copy.finalizers);
  }

  /** No managed object is created unless the stored Workshop carries the finalizer. */
  lemma PassCreatesArmed(w: World, ch: Choice)
    ensures CreatesArmed(w, Pass(w, ch).w)
  {
    hide DoGetWorkshop, Foreign, Build, Finalize, DoUpdateWorkshop;
    var g := DoGetWorkshop(w);
    var s := Foreign(g.w, "console");
    OpeningFacts(w);
    if g.out == Ok && g.w.cr.Some? && s.r == Done {
      ConsoleFacts(g.w, "console");
      ActCreatesArmed(g.w, g.w.cr.value, ch, s.w);
      CreatesArmedThen(w, s.w, Pass(w, ch).w);
    }
  }

  lemma ActCreatesArmed(g: World, copy: Resource, ch: Choice, w: World)
    requires Ordinary(g, w) && g.cr == Some(copy)
    ensures CreatesArmed(w, Act(copy, ch, w).w)
  {
    hide Build, Finalize, DoUpdateWorkshop;
    if copy.marked {
      FinalizeFacts(copy, ch, w);
    } else {
      var a := Arm(copy, w);
      assert FINALIZER in copy.finalizers ==> Armed(w);
      UpdateWorkshopFacts(w, copy.(finalizers := copy.finalizers + [FINALIZER]));
      assert a.r == Done ==> Armed(a.w) by {
        if a.r == Done && FINALIZER !in copy.finalizers && a.w.cr.Some? {
          assert a.w.cr.value.finalizers == copy.finalizers + [FINALIZER];
        }
      }
      if a.r == Done {
        BuildFollows(copy.spec, ch, a.w);
        CreatesArmedThen(w, a.w, Build(copy.spec, ch, a.w).w);
      }
    }
  }

  /** The finalizer is removed only by a pass that read the mark and called handleDelete. */
  lemma RemovedOnlyAfterMark(w: World, ch: Choice)
    requires Armed(w) && !Armed(Pass(w, ch).w)
    ensures Deletes(w)
  {
    hide DoGetWorkshop, Foreign, Build, Finalize, DoUpdateWorkshop;
    var g := DoGetWorkshop(w);
    var s := Foreign(g.w, "console");
    OpeningFacts(w);
    if g.out == Ok && g.w.cr.Some? && s.r == Done && !g.w.cr.value.marked {
      BuildFollows(g.w.cr.value.spec, ch, s.w);
    }
  }

  /** A pass that read the mark creates nothing and never puts the finalizer back. */
  lemma MarkedPassTakes(w: World, ch: Choice)
    requires SawMark(w)
    ensures NoCreates(w, Pass(w, ch).w)
    ensures Armed(Pass(w, ch).w) ==> Armed(w)
    ensures Deletes(w) && Pass(w, ch).r == Done ==> !Armed(Pass(w, ch).w)
  {
    hide DoGetWorkshop, Foreign, Build, Finalize, DoUpdateWorkshop;
    var g := DoGetWorkshop(w);
    var s := Foreign(g.w, "console");
    OpeningFacts(w);
    FinalizeFacts(g.w.cr.value, ch, s.w);
  }

  /** Once marked, a Workshop stays marked until it is gone, and without the finalizer it never gets it back. */
  lemma MarkStays(w: World, ch: Choice)
    requires w.cr.None? || w.cr.value.marked
    ensures var v := Pass(w, ch).w;
            (v.cr.None? || v.cr.value.marked) && (Armed(v) ==> Armed(w)) && NoCreates(w, v)
  {
    hide DoGetWorkshop, Foreign, Build, Finalize, DoUpdateWorkshop;
    var g := DoGetWorkshop(w);
    var s := Foreign(g.w, "console");
    OpeningFacts(w);
    if g.out == Ok && g.w.cr.Some? && s.r == Done {
      FinalizeFacts(g.w.cr.value, ch, s.w);
    }
  }

  /* ---------- Other finalizers ---------- */

  /** The Workshop carries the other finalizers it carried before, as often as before. */
  ghost predicate OthersKept(before: Option<Resource>, after: Option<Resource>) {
    after.Some? ==>
      before.Some?
      && forall f :: f != FINALIZER ==>
           multiset(after.value.finalizers)[f] == multiset(before.value.finalizers)[f]
  }

  lemma OthersThen(a: Option<Resource>, b: Option<Resource>, c: Option<Resource>)
    requires OthersKept(a, b) && OthersKept(b, c)
    ensures OthersKept(a, c)
  {
  }

  lemma KeptOthers(w: World, v: World)
    requires CrKept(w, v) || Ordinary(w, v)
    ensures OthersKept(w.cr, v.cr)
  {
  }

  /** Writing back finalizers that differ from those read in the operator's own only. */
  lemma UpdateOthers(w: World, copy: Resource, finalizers: seq<string>)
    requires w.cr.Some? ==> w.cr.value.finalizers == copy.finalizers
    requires forall f :: f != FINALIZER ==> multiset(finalizers)[f] == multiset(copy.finalizers)[f]
    ensures OthersKept(w.cr, DoUpdateWorkshop(w, copy.(finalizers := finalizers)).w.cr)
  {
    PopFacts(w);
    UpdateWorkshopCr(w, copy.(finalizers := finalizers));
    hide DoUpdateWorkshop, Pop;
  }

  lemma AddedCount(finalizers: seq<string>)
    ensures forall f :: f != FINALIZER ==> multiset(finalizers + [FINALIZER])[f] == multiset(finalizers)[f]
  {
  }

  lemma DroppedCount(finalizers: seq<string>)
    ensures forall f :: f != FINALIZER ==> multiset(Dropped(finalizers))[f] == multiset(finalizers)[f]
  {
    DroppedKeeps(finalizers);
  }

  lemma BuildCr(spec: Spec, ch: Choice, w: World)
    ensures CrKept(w, Build(spec, ch, w).w)
  {
    hide DoList, UserStage.UserPlan, MainPlan, Run;
    ListKeeps(w);
    var l := DoList(w).w;
    assert CrKept(w, l);
    var u := UserStage.Stage(spec, ch.users, w);
    RunCr(UserStage.UserPlan(spec, ch.users), 0, l);
    CrKeptTrans(w, l, u.w);
    if u.r == Done {
      RunCr(MainPlan(spec, ch.guides), 0, u.w);
      CrKeptTrans(w, u.w, Build(spec, ch, w).w);
    }
  }

  lemma ActOthers(copy: Resource, ch: Choice, w: World)
    requires w.cr.Some? ==> w.cr.value.finalizers == copy.finalizers
    ensures OthersKept(w.cr, Act(copy, ch, w).w.cr)
  {
    hide Build, Teardown, DoUpdateWorkshop, CrKept, OthersKept;
    SelfOthers(w.cr);
    if copy.marked {
      if FINALIZER in copy.finalizers {
        var d := Teardown(copy.spec, ch, w);
        TeardownTakes(copy.spec, ch, w);
        KeptOthers(w, d.w);
        SameFinalizers(w, d.w);
        DroppedCount(copy.finalizers);
        UpdateOthers(d.w, copy, Dropped(copy.finalizers));
        OthersThen(w.cr, d.w.cr, DoUpdateWorkshop(d.w, copy.(finalizers := Dropped(copy.finalizers))).w.cr);
      }
    } else {
      var a := Arm(copy, w);
      AddedCount(copy.finalizers);
      UpdateOthers(w, copy, copy.finalizers + [FINALIZER]);
      if a.r == Done {
        BuildCr(copy.spec, ch, a.w);
        KeptOthers(a.w, Build(copy.spec, ch, a.w).w);
        OthersThen(w.cr, a.w.cr, Build(copy.spec, ch, a.w).w.cr);
      }
    }
  }

  lemma SelfOthers(cr: Option<Resource>)
    ensures OthersKept(cr, cr)
  {
  }

  lemma SameFinalizers(w: World, v: World)
    requires CrKept(w, v)
    ensures v.cr.Some? ==> w.cr.Some? && v.cr.value.finalizers == w.cr.value.finalizers
  {
  }

  /** Whatever fails and whoever interferes, a pass neither adds nor removes a finalizer but the operator's own. */
  lemma PassKeepsOthers(w: World, ch: Choice)
    ensures OthersKept(w.cr, Pass(w, ch).w.cr)
  {
    hide DoGetWorkshop, Foreign, Act, OthersKept;
    var g := DoGetWorkshop(w);
    var s := Foreign(g.w, "console");
    OpeningFacts(w);
    ConsoleFacts(g.w, "console");
    KeptOthers(w, g.w);
    KeptOthers(w, s.w);
    if g.out == Ok && g.w.cr.Some? && s.r == Done {
      ActOthers(g.w.cr.value, ch, s.w);
      OthersThen(w.cr, s.w.cr, Act(g.w.cr.value, ch, s.w).w.cr);
    }
  }

  /* ---------- The result of the cleanup is discarded ---------- */

  /** Once the teardown has ended, however it ended, the finalizer goes exactly when nobody has touched the Workshop
      since it was read and the update reaches the server; the pass reports success when it also learns of it. */
  lemma RemovedRegardless(copy: Resource, ch: Choice, w: World)
    requires Teardown(copy.spec, ch, w).r != Hung
    requires w.cr == Some(copy) && copy.marked && FINALIZER in copy.finalizers
    ensures var d, a := Teardown(copy.spec, ch, w), Finalize(copy, ch, w);
            && (!Armed(a.w) <==> Pop(d.w).cr == Some(copy) && Next(d.w).fault != Lost)
            && (a.r == Done <==> Pop(d.w).cr == Some(copy) && Next(d.w).fault == Clean)
  {
    hide Teardown, DoUpdateWorkshop, Pop, Follows, CrKept;
    var d := Teardown(copy.spec, ch, w);
    TeardownTakes(copy.spec, ch, w);
    StillArmed(copy, w, d.w);
    DroppedGone(copy.finalizers);
    UpdateCopy(copy, Dropped(copy.finalizers), d.w);
  }

  /** A marked Workshop with the finalizer is still there after a stretch that leaves it to others, and unless
      somebody has touched it, it is as it was read. */
  lemma StillArmed(copy: Resource, w: World, d: World)
    requires w.cr == Some(copy) && FINALIZER in copy.finalizers && Follows(w, d) && CrKept(w, d)
    ensures var v := Pop(d);
            v.cr.Some? && v.cr.value.finalizers == copy.finalizers
            && (v.cr.value.version == copy.version ==> v.cr.value == copy)
  {
    PopFacts(d);
    FollowsTrans(w, d, Pop(d));
    CrKeptTrans(w, d, Pop(d));
    assert Armed(w) && Armed(Pop(d));
  }

  /** Writing the copy back with other finalizers. */
  lemma UpdateCopy(copy: Resource, finalizers: seq<string>, w: World)
    requires copy.marked && FINALIZER in copy.finalizers && FINALIZER !in finalizers
    requires var v := Pop(w);
             v.cr.Some? && v.cr.value.finalizers == copy.finalizers
             && (v.cr.value.version == copy.version ==> v.cr.value == copy)
    ensures var u := DoUpdateWorkshop(w, copy.(finalizers := finalizers));
            && (!Armed(u.w) <==> Pop(w).cr == Some(copy) && Next(w).fault != Lost)
            && (u.out == Ok <==> Pop(w).cr == Some(copy) && Next(w).fault == Clean)
  {
    hide Pop, Next;
  }

  /** Cleanup may fail and the finalizer is removed all the same: on an empty cluster the htpasswd secret is not
      found, and the Workshop still disappears. */
  lemma RemovedAfterFailedCleanup(spec: Spec, ch: Choice)
    requires ch.listed == []
    ensures var copy := Resource(spec, [FINALIZER], true, 1);
            var w := World(map[], Some(copy), map[], map[], map[], [], []);
            Teardown(spec, ch, w).r == Failed && Finalize(copy, ch, w).r == Done && Finalize(copy, ch, w).w.cr == None
  {
    var copy := Resource(spec, [FINALIZER], true, 1);
    var w := World(map[], Some(copy), map[], map[], map[], [], []);
    var p, l := UserStage.DeletePlan([]), DoList(w).w;
    assert p == [RemoveStep(Htpasswd.SECRET)];
    assert l.cr == w.cr && l.script == [] && l.store == map[];
    var d := Do(p[0], l);
    assert d.r == Failed && d.w.cr == w.cr && d.w.script == [];
    assert Run(p, 0, l) == d;
    assert Teardown(spec, ch, w) == d;
    assert Dropped([FINALIZER]) == [] by { assert [FINALIZER][1..] == []; }
  }
}
