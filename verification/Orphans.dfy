/** Deletion after a complete pass: with projects enabled the cleanup stops before it reaches Nexus and Vault. */
module Orphans {
  import opened World
  import opened Steps
  import opened Scans
  import opened Plans
  import opened Frame
  import opened Htpasswd
  import opened Accounts
  import opened Reconcile
  import opened Finalizer
  import opened MainFacts
  import opened Runs
  import opened Counts
  import opened Strings = Text
  import UserStage
  import PortalStage
  import ProjectStage
  import NexusStage
  import VaultStage

  /** The objects of the components that the cleanup comes to after the projects. */
  predicate Component(k: Key) {
    k in NexusStage.KEYS || exists s :: s in VaultStage.AddPlan() && s.key == k
  }

  lemma ComponentKeys(k: Key)
    requires Component(k)
    ensures !UserSpace(k) && k.kind != RoleBinding && k.kind != Role
    ensures k.kind == Namespace ==> k.name == NexusStage.NEXUS || k.name == VaultStage.VAULT
    ensures k.name != "redis" && k.name != "portal"
  {
    if s :| s in VaultStage.AddPlan() && s.key == k {
      VaultName(s);
    }
  }

  lemma VaultName(s: Step)
    requires s in VaultStage.AddPlan()
    ensures !UserSpace(s.key) && s.key.kind != RoleBinding && s.key.kind != Role
    ensures s.key.kind == Namespace ==> s.key.name == VaultStage.VAULT
    ensures s.key.name != "redis" && s.key.name != "portal"
  {
    VaultKeys(s);
    FineVault(s);
    assert s.key.name[0] == 'v';
  }

  /** deleteUsers leaves everything else alone. */
  lemma DeleteUsersAvoids(items: seq<string>, k: Key)
    requires !UserSpace(k)
    ensures PlanAvoids(UserStage.DeletePlan(items), k)
  {
    hide UserSpace, Avoids, UserStage.RemoveBlock;
    var p, blocks := UserStage.DeletePlan(items), UserStage.AllRemovals(items);
    forall i | 0 <= i < |p| ensures Avoids(p[i], k) {
      InFlat(blocks, 0, p[i]);
      if p[i] in Flat(blocks, 0) {
        var j :| 0 <= j < |blocks| && p[i] in blocks[j];
        UserBlockStep(items[j], p[i], k);
      } else {
        assert p[i] == RemoveStep(SECRET);
        assert Avoids(RemoveStep(SECRET), k) by { NotTheSecret(k); }
      }
    }
  }

  lemma NotTheSecret(k: Key)
    requires !UserSpace(k)
    ensures Avoids(RemoveStep(SECRET), k)
  {
  }

  lemma PortalAvoids(spec: Spec, k: Key)
    requires k.kind == Namespace || (k.name != "redis" && k.name != "portal")
    ensures PlanAvoids(PortalStage.DeletePlan(spec), k)
  {
  }

  lemma RemovalResult(s: Step, w: World)
    requires s.PeekStep? || s.RemoveStep? || s.DropStep?
    ensures Do(s, w).r == Done || Do(s, w).r == Failed
  {
    hide DoGet, DoDelete;
  }

  /** A plan that removes ends well or fails. */
  lemma {:induction false} RemovalEnds(p: Plan, i: nat, w: World)
    requires i <= |p| && forall s :: s in p ==> s.PeekStep? || s.RemoveStep? || s.DropStep?
    ensures Run(p, i, w).r == Done || Run(p, i, w).r == Failed
    decreases |p| - i
  {
    if i < |p| {
      assert p[i] in p;
      RunNext(p, i, w);
      RemovalResult(p[i], w);
      hide Do, Run;
      var a := Do(p[i], w);
      if a.r == Done {
        RemovalEnds(p, i + 1, a.w);
      }
    } else {
      RunEnd(p, w);
    }
  }

  lemma DeleteUsersSteps(items: seq<string>)
    ensures forall s :: s in UserStage.DeletePlan(items) ==> s.PeekStep? || s.RemoveStep? || s.DropStep?
  {
    var p, blocks := UserStage.DeletePlan(items), UserStage.AllRemovals(items);
    forall s | s in p ensures s.PeekStep? || s.RemoveStep? || s.DropStep? {
      InFlat(blocks, 0, s);
      if s in Flat(blocks, 0) {
        var j :| 0 <= j < |blocks| && s in blocks[j];
        assert s in UserStage.RemoveBlock(items[j]);
      }
    }
  }

  /** The names deleteProject scans below the user count are all there. */
  ghost predicate AllSpaces(spec: Spec, store: map<Key, Obj>) {
    forall j: nat :: 1 <= j < spec.Seats() ==> Numbered(Namespace, "", spec.staging, j) in store
  }

  /** The project part of the cleanup then fails, whatever the faults. */
  lemma ProjectsFail(spec: Spec, w: World)
    requires spec.projectEnabled && spec.staging != "" && AllSpaces(spec, w.store)
    ensures var p := [DropProjects(spec.staging, spec.Seats(), spec.projectEnabled), ForeignStep("bookbag")];
            Run(p, 0, w) == Do(p[0], w) && Do(p[0], w).r == Failed
  {
    hide DeleteFrom, Do, Run;
    var p := [DropProjects(spec.staging, spec.Seats(), spec.projectEnabled), ForeignStep("bookbag")];
    DeleteOutcome(w, spec.staging, spec.Seats(), true, 1);
    assert !SomeMiss(w, spec.staging, 1, spec.Seats());
    ProjectStage.DoDrop(w, spec.staging, spec.Seats(), true);
    RunNext(p, 0, w);
  }

  lemma ComponentSafe(spec: Spec, k: Key)
    requires Component(k)
    ensures Avoids(DropProjects(spec.staging, spec.Seats(), spec.projectEnabled), k)
  {
    ComponentKeys(k);
    forall id: nat ensures k !in ProjectKeys(spec.staging, id) {
      NotNumbered(NexusStage.NEXUS, spec.staging, id);
      NotNumbered(VaultStage.VAULT, spec.staging, id);
    }
  }

  /** The cleanup behind the users: portal, then the projects, and there it fails. */
  lemma TearStops(spec: Spec, w: World)
    requires spec.projectEnabled && spec.staging != "" && AllSpaces(spec, w.store)
    ensures Run(TearPlan(spec), 0, w).r == Failed
    ensures forall k :: Component(k) ==> SameAt(w.store, Run(TearPlan(spec), 0, w).w.store, k)
  {
    hide Do, Run, Flat, PortalStage.DeletePlan, NexusStage.DeletePlan, VaultStage.DeletePlan, Component, Avoids;
    var ss := TearStages(spec);
    var portal := PortalStage.DeletePlan(spec);
    var a := Run(portal, 0, w);
    StageLemma(ss, 0, w);
    PortalSteps(spec);
    RemovalEnds(portal, 0, w);
    forall k | Component(k) ensures SameAt(w.store, a.w.store, k) {
      ComponentKeys(k);
      PortalAvoids(spec, k);
      RunAvoids(portal, 0, w, k);
    }
    if a.r == Done {
      forall j: nat | 1 <= j < spec.Seats() ensures Numbered(Namespace, "", spec.staging, j) in a.w.store {
        PortalAvoids(spec, Numbered(Namespace, "", spec.staging, j));
        RunAvoids(portal, 0, w, Numbered(Namespace, "", spec.staging, j));
      }
      StageLemma(ss, 1, a.w);
      ProjectsFail(spec, a.w);
      forall k | Component(k) ensures SameAt(a.w.store, Do(ss[1][0], a.w).w.store, k) {
        ComponentSafe(spec, k);
        StepAvoids(ss[1][0], a.w, k);
      }
    }
  }

  lemma PortalSteps(spec: Spec)
    ensures forall s :: s in PortalStage.DeletePlan(spec) ==> s.PeekStep? || s.RemoveStep? || s.DropStep?
  {
  }

  /** With projects enabled and every namespace below the user count present, the cleanup fails under any faults, and
      no object of Nexus or Vault is touched. */
  lemma TeardownStops(spec: Spec, ch: Choice, w: World)
    requires spec.projectEnabled && spec.staging != "" && AllSpaces(spec, w.store)
    ensures Teardown(spec, ch, w).r == Failed
    ensures forall k :: Component(k) ==> SameAt(w.store, Teardown(spec, ch, w).w.store, k)
  {
    hide Do, Run, DoList, UserStage.DeletePlan, TearPlan, Component, UserSpace;
    var p, l := UserStage.DeletePlan(ch.listed), DoList(w).w;
    ListKeeps(w);
    var u := Run(p, 0, l);
    DeleteUsersSteps(ch.listed);
    RemovalEnds(p, 0, l);
    forall k | Component(k) ensures SameAt(w.store, u.w.store, k) {
      ComponentKeys(k);
      DeleteUsersAvoids(ch.listed, k);
      RunAvoids(p, 0, l, k);
    }
    forall j: nat | 1 <= j < spec.Seats() ensures Numbered(Namespace, "", spec.staging, j) in u.w.store {
      SpaceNotUsers(spec.staging, j);
      DeleteUsersAvoids(ch.listed, Numbered(Namespace, "", spec.staging, j));
      RunAvoids(p, 0, l, Numbered(Namespace, "", spec.staging, j));
    }
    if u.r == Done {
      TearStops(spec, u.w);
    }
  }

  lemma SpaceNotUsers(staging: string, j: nat)
    ensures !UserSpace(Numbered(Namespace, "", staging, j))
  {
  }

  /** A complete pass with projects enabled has ensured those namespaces. */
  lemma CompletedSpaces(w: World, ch: Choice)
    requires Completes(w, ch) && SpecOf(w).projectEnabled && SpecOf(w).staging != ""
    ensures AllSpaces(SpecOf(w), Pass(w, ch).w.store)
  {
    hide Pass, BuildStart, MainPlan, ProjectStage.Block;
    var spec := SpecOf(w);
    forall j: nat | 1 <= j < spec.Seats() ensures Numbered(Namespace, "", spec.staging, j) in Pass(w, ch).w.store {
      BlockSteps(spec, ch.guides, j);
      SpaceInBlock(spec, j);
      CompletedHas(w, ch, ProjectStage.Block(spec, j)[0]);
    }
  }

  /** So after a complete pass with projects enabled, a pass that deletes the same Workshop never reaches Nexus or
      Vault, with or without faults: their objects stay as they are, and when the pass reports success the finalizer
      is gone. */
  lemma LeftBehind(w: World, ch: Choice, w2: World, ch2: Choice)
    requires Completes(w, ch) && SpecOf(w).projectEnabled && SpecOf(w).staging != ""
    requires w2.store == Pass(w, ch).w.store && Deletes(w2) && DoGetWorkshop(w2).w.cr.Some?
    requires DoGetWorkshop(w2).w.cr.value.spec == SpecOf(w)
    ensures forall k :: Component(k) ==> SameAt(w2.store, Pass(w2, ch2).w.store, k)
    ensures Pass(w2, ch2).r == Done ==> !Armed(Pass(w2, ch2).w)
  {
    hide Pass, BuildStart, Deletes, Teardown, DoGetWorkshop, Foreign, DoUpdateWorkshop, Component, AllSpaces;
    var copy, s := DoGetWorkshop(w2).w.cr.value, Foreign(DoGetWorkshop(w2).w, "console");
    CompletedSpaces(w, ch);
    DeletingPass(w2, ch2);
    TeardownStops(copy.spec, ch2, s.w);
    UpdateWorkshopFacts(Teardown(copy.spec, ch2, s.w).w, copy.(finalizers := Dropped(copy.finalizers)));
    FinalizeFacts(copy, ch2, s.w);
  }
}
