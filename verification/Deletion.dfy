/** What the cleanup of a deleted Workshop achieves without faults: exactly when it ends well, and what is left. */
module Deletion {
  import opened World
  import opened Steps
  import opened Scans
  import opened Plans
  import opened Frame
  import opened Undo
  import opened Accounts
  import opened Convergence
  import opened Reconcile
  import opened Finalizer
  import opened Runs
  import opened MainFacts
  import opened Inventory
  import opened Installed
  import Htpasswd
  import Orphans
  import UserStage
  import PortalStage
  import ProjectStage
  import NexusStage
  import VaultStage

  /* ---------- Plans of removals ---------- */

  /** A removal plan in which nothing is removed after it has been removed or dropped before. */
  ghost predicate Orderly(p: Plan) {
    && (forall j :: 0 <= j < |p| ==> p[j].PeekStep? || Pulling(p[j]))
    && forall j, h :: 0 <= j < h < |p| && Pulling(p[j]) && p[h].RemoveStep? ==> p[j].key != p[h].key
  }

  /** Everything the plan removes without looking first, from the i-th step on, is there. */
  ghost predicate Needs(p: Plan, i: nat, store: map<Key, Obj>) {
    forall j :: i <= j < |p| && p[j].RemoveStep? ==> p[j].key in store
  }

  lemma CalmStepTakes(s: Step, w: World)
    requires Calm(w) && (s.PeekStep? || Pulling(s))
    ensures var a := Do(s, w);
            && Calm(a.w)
            && (a.r == Done <==> s.RemoveStep? ==> s.key in w.store)
            && (a.r == Done ==> a.w.store == if Pulling(s) then w.store - {s.key} else w.store)
  {
    match s
    case PeekStep(k) => GetFacts(w, k);
    case RemoveStep(k) => DeleteFacts(w, k);
    case DropStep(k) =>
      GetFacts(w, k);
      DeleteFacts(DoGet(w, k).w, k);
  }

  lemma NeedsNext(p: Plan, i: nat, before: map<Key, Obj>, after: map<Key, Obj>)
    requires i < |p| && Orderly(p) && after == if Pulling(p[i]) then before - {p[i].key} else before
    ensures Needs(p, i, before) <==> (p[i].RemoveStep? ==> p[i].key in before) && Needs(p, i + 1, after)
  {
    if Needs(p, i + 1, after) && (p[i].RemoveStep? ==> p[i].key in before) {
      forall j | i <= j < |p| && p[j].RemoveStep? ensures p[j].key in before {
        if j > i { assert p[j].key in after; }
      }
    }
  }

  lemma FromNext(p: Plan, i: nat)
    requires i < |p|
    ensures From(p, i) == (if Pulling(p[i]) || Putting(p[i]) then {p[i].key} else {}) + From(p, i + 1)
  {
  }

  /** Without faults an orderly removal ends well exactly when everything it needs is there, and takes all its
      objects. */
  lemma {:induction false} CalmTakesExactly(p: Plan, i: nat, w: World)
    requires i <= |p| && Orderly(p) && Calm(w)
    ensures var a := Run(p, i, w);
            && (a.r == Done <==> Needs(p, i, w.store))
            && (a.r == Done ==> Calm(a.w) && a.w.store == w.store - From(p, i))
    decreases |p| - i
  {
    if i < |p| {
      var a := Do(p[i], w);
      CalmStepTakes(p[i], w);
      RunNext(p, i, w);
      FromNext(p, i);
      hide Do, Run, From;
      if a.r == Done {
        CalmTakesExactly(p, i + 1, a.w);
        NeedsNext(p, i, w.store, a.w.store);
      } else {
        assert !Needs(p, i, w.store);
      }
    } else {
      assert From(p, i) == {};
    }
  }

  /** The same for a plan whose objects are given as lists. */
  lemma CalmTakesThese(p: Plan, needs: set<Key>, all: set<Key>, w: World)
    requires Orderly(p) && Calm(w) && From(p, 0) == all
    requires forall j :: 0 <= j < |p| && p[j].RemoveStep? ==> p[j].key in needs
    requires forall k :: k in needs ==> exists j :: 0 <= j < |p| && p[j] == RemoveStep(k)
    ensures var a := Run(p, 0, w);
            && (a.r == Done <==> needs <= w.store.Keys)
            && (a.r == Done ==> Calm(a.w) && a.w.store == w.store - all)
  {
    hide Run, From, Orderly;
    CalmTakesExactly(p, 0, w);
  }

  /* ---------- Portal, Nexus, Vault ---------- */

  /** The portal's objects, all but its deployment, which is removed only if it is found. */
  function PortalNeeds(spec: Spec): set<Key> {
    {Key(Route, spec.namespace, "portal"), Key(Service, spec.namespace, "portal"),
     Key(Service, spec.namespace, "redis"), Key(Deployment, spec.namespace, "redis"),
     Key(PersistentVolumeClaim, spec.namespace, "redis"), Key(Secret, spec.namespace, "redis")}
  }

  lemma PortalFrom(spec: Spec)
    ensures From(PortalStage.DeletePlan(spec), 0) == KeySet(Portal(spec))
  {
    var p, keys := PortalStage.DeletePlan(spec), Portal(spec);
    forall k | k in From(p, 0) ensures k in keys { }
    forall k | k in KeySet(keys) ensures k in From(p, 0) {
      var j :| 0 <= j < |keys| && keys[j] == k;
      var there := [6, 5, 4, 3, 2, 1, 0];
      assert p[there[j]].key == k;
    }
  }

  lemma PortalGone(spec: Spec, w: World)
    requires Calm(w)
    ensures var a := Run(PortalStage.DeletePlan(spec), 0, w);
            && (a.r == Done <==> PortalNeeds(spec) <= w.store.Keys)
            && (a.r == Done ==> Calm(a.w) && a.w.store == w.store - KeySet(Portal(spec)))
  {
    hide Run, From;
    var p := PortalStage.DeletePlan(spec);
    PortalFrom(spec);
    assert p[0].key in PortalNeeds(spec);
    forall k | k in PortalNeeds(spec) ensures exists j :: 0 <= j < |p| && p[j] == RemoveStep(k) {
      assert k == p[0].key || k == p[1].key || k == p[3].key || k == p[4].key || k == p[5].key || k == p[6].key;
    }
    CalmTakesThese(p, PortalNeeds(spec), KeySet(Portal(spec)), w);
  }

  lemma NexusStep(j: nat)
    requires j < |NexusStage.DeletePlan()|
    ensures |NexusStage.DeletePlan()| == 7 && NexusStage.DeletePlan()[j] == RemoveStep(NEXUS[6 - j])
  {
  }

  lemma NexusApart(i: nat, j: nat)
    requires i < j < 7
    ensures NEXUS[i] != NEXUS[j]
  {
  }

  lemma NexusGone(w: World)
    requires Calm(w)
    ensures var a := Run(NexusStage.DeletePlan(), 0, w);
            && (a.r == Done <==> KeySet(NEXUS) <= w.store.Keys)
            && (a.r == Done ==> Calm(a.w) && a.w.store == w.store - KeySet(NEXUS))
  {
    hide Run, NexusStage.DeletePlan;
    var p := NexusStage.DeletePlan();
    assert |p| == 7 by { NexusLength(); }
    forall j | 0 <= j < |p| ensures p[j] == RemoveStep(NEXUS[6 - j]) { NexusStep(j); }
    forall j, h | 0 <= j < h < |p| ensures p[j].key != p[h].key { NexusApart(6 - h, 6 - j); }
    forall k | k in KeySet(NEXUS) ensures exists j :: 0 <= j < |p| && p[j] == RemoveStep(k) {
      var i :| 0 <= i < |NEXUS| && NEXUS[i] == k;
      assert p[6 - i] == RemoveStep(k);
    }
    assert From(p, 0) == KeySet(NEXUS);
    hide From;
    CalmTakesThese(p, KeySet(NEXUS), KeySet(NEXUS), w);
  }

  lemma NexusLength()
    ensures |NexusStage.DeletePlan()| == 7
  {
  }

  /** Vault's objects, all but the security context, which is removed only if it is found. */
  ghost function VaultNeeds(): set<Key> {
    KeySet(VAULT) - {Key(SecurityContextConstraints, "", "vault")}
  }

  lemma VaultStep(j: nat)
    requires j < |VaultStage.DeletePlan()|
    ensures var s := VaultStage.DeletePlan()[j];
            && Pulling(s) && s.key in VAULT
            && (s.DropStep? <==> s.key == Key(SecurityContextConstraints, "", "vault"))
  {
    var there := [7, 6, 5, 4, 3, 2, 1, 15, 14, 13, 12, 11, 3, 9, 0];
    assert VaultStage.DeletePlan()[j].key == VAULT[there[j]];
  }

  lemma VaultKey(i: nat)
    requires i < |VAULT|
    ensures exists j :: 0 <= j < |VaultStage.DeletePlan()| && Pulling(VaultStage.DeletePlan()[j])
                        && VaultStage.DeletePlan()[j].key == VAULT[i]
  {
    var there := [14, 6, 5, 4, 3, 2, 1, 0, 14, 13, 4, 11, 10, 9, 8, 7];
    assert VaultStage.DeletePlan()[there[i]].key == VAULT[i];
  }

  lemma VaultGone(w: World)
    requires Calm(w)
    ensures var a := Run(VaultStage.DeletePlan(), 0, w);
            && (a.r == Done <==> VaultNeeds() <= w.store.Keys)
            && (a.r == Done ==> Calm(a.w) && a.w.store == w.store - KeySet(VAULT))
  {
    VaultStage.DeleteShape();
    hide Run, VaultStage.DeletePlan, VAULT;
    var p := VaultStage.DeletePlan();
    forall j | 0 <= j < |p|
      ensures Pulling(p[j]) && p[j].key in VAULT
              && (p[j].DropStep? <==> p[j].key == Key(SecurityContextConstraints, "", "vault"))
    {
      VaultStep(j);
    }
    forall k | k in VAULT ensures exists j :: 0 <= j < |p| && Pulling(p[j]) && p[j].key == k {
      var i :| 0 <= i < |VAULT| && VAULT[i] == k;
      VaultKey(i);
    }
    forall k | k in VaultNeeds() ensures exists j :: 0 <= j < |p| && p[j] == RemoveStep(k) {
      var j :| 0 <= j < |p| && Pulling(p[j]) && p[j].key == k;
      assert p[j] == RemoveStep(k);
    }
    assert From(p, 0) == KeySet(VAULT);
    hide From;
    CalmTakesThese(p, VaultNeeds(), KeySet(VAULT), w);
  }

  /* ---------- Foreign parts, and the projects ---------- */

  lemma {:induction false} CalmForeign(p: Plan, i: nat, w: World)
    requires i <= |p| && Calm(w) && forall j :: 0 <= j < |p| ==> p[j].ForeignStep?
    ensures var a := Run(p, i, w); a.r == Done && Calm(a.w) && a.w.store == w.store
    decreases |p| - i
  {
    if i < |p| {
      ReadFacts(w, Watch, Key(Workshop, "", p[i].name), Ok);
      PopFacts(w);
      RunNext(p, i, w);
      CalmForeign(p, i + 1, Do(p[i], w).w);
    }
  }

  /** When deleteProject ends well, it has removed nothing. */
  lemma {:induction false} DoneKeeps(w: World, staging: string, userId: nat, enabled: bool, id: nat)
    requires DeleteFrom(w, staging, userId, enabled, id).r == Done
    ensures DeleteFrom(w, staging, userId, enabled, id).w.store == w.store
    decreases Ahead(w, staging, id)
  {
    hide DeleteFrom, DoGet, RemoveEach, ProjectKeys, Ahead;
    DeleteRound(w, staging, userId, enabled, id);
    AheadDrops(w, staging, id);
    DeleteOutcome(w, staging, userId, enabled, id);
    var g := DoGet(w, Numbered(Namespace, "", staging, id));
    GetFacts(w, Numbered(Namespace, "", staging, id));
    if g.out != NotFound && !(id >= userId && enabled) {
      DoneKeeps(g.w, staging, userId, enabled, id + 1);
    }
  }

  /** Projects are off, or one of the namespaces numbered below the user count is missing. */
  ghost predicate ProjectsEnd(spec: Spec, store: map<Key, Obj>) {
    spec.projectEnabled ==>
      exists j: nat :: 1 <= j < spec.Seats() && Numbered(Namespace, "", spec.staging, j) !in store
  }

  lemma ProjectsDone(spec: Spec, w: World)
    requires Calm(w)
    ensures var p := [DropProjects(spec.staging, spec.Seats(), spec.projectEnabled), ForeignStep("bookbag")];
            var a := Run(p, 0, w);
            && (a.r == Done <==> ProjectsEnd(spec, w.store))
            && (a.r == Done ==> Calm(a.w) && a.w.store == w.store)
  {
    var p := [DropProjects(spec.staging, spec.Seats(), spec.projectEnabled), ForeignStep("bookbag")];
    var a := Do(p[0], w);
    ProjectStage.DoDrop(w, spec.staging, spec.Seats(), spec.projectEnabled);
    DeleteOutcome(w, spec.staging, spec.Seats(), spec.projectEnabled, 1);
    ScansMiss(spec, w);
    StepCalm(p[0], w);
    RunNext(p, 0, w);
    hide Do, Run, DeleteFrom, SomeMiss, ProjectsEnd;
    if a.r == Done {
      DoneKeeps(w, spec.staging, spec.Seats(), spec.projectEnabled, 1);
      CalmBookbag(p, a.w);
    }
  }

  lemma CalmBookbag(p: Plan, w: World)
    requires Calm(w) && |p| == 2 && p[1] == ForeignStep("bookbag")
    ensures Run(p, 1, w).r == Done && Calm(Run(p, 1, w).w) && Run(p, 1, w).w.store == w.store
  {
    ReadFacts(w, Watch, Key(Workshop, "", "bookbag"), Ok);
    PopFacts(w);
    RunNext(p, 1, w);
    RunEnd(p, Do(p[1], w).w);
  }

  lemma ScansMiss(spec: Spec, w: World)
    requires Calm(w)
    ensures !spec.projectEnabled || SomeMiss(w, spec.staging, 1, spec.Seats()) <==> ProjectsEnd(spec, w.store)
  {
    forall j: nat | 1 <= j
      ensures Misses(w, spec.staging, 1, j) <==> Numbered(Namespace, "", spec.staging, j) !in w.store
    {
      if j - 1 < |w.script| { CalmTick(w.script, j - 1); }
    }
  }

  /* ---------- The users ---------- */

  lemma RemoveOrderly(name: string)
    ensures var p := UserStage.RemoveBlock(name);
            && Orderly(p) && From(p, 0) == Links(name)
            && forall store :: Needs(p, 0, store) <==> Complete(store, name)
  {
    var p := UserStage.RemoveBlock(name);
    RemoveSteps(name);
    assert p[0] == PeekStep(UserKey(name));
    hide UserStage.RemoveBlock, Link;
    LinkInjective(name, 0, name, 1);
    LinkInjective(name, 0, name, 2);
    LinkInjective(name, 0, name, 3);
    LinkInjective(name, 1, name, 2);
    LinkInjective(name, 1, name, 3);
    LinkInjective(name, 2, name, 3);
    assert p[1].key in From(p, 0) && p[2].key in From(p, 0) && p[3].key in From(p, 0) && p[4].key in From(p, 0);
    forall store ensures Needs(p, 0, store) <==> Complete(store, name) {
      if Needs(p, 0, store) {
        assert p[1].key in store && p[2].key in store && p[3].key in store && p[4].key in store;
        forall i | 0 <= i < 4 ensures Link(name, i) in store { }
      }
    }
  }

  lemma CalmRemoveAny(name: string, w: World)
    requires Calm(w)
    ensures var a := Run(UserStage.RemoveBlock(name), 0, w);
            && (a.r == Done <==> Complete(w.store, name))
            && (a.r == Done ==> Calm(a.w) && a.w.store == w.store - Links(name))
  {
    hide Run, UserStage.RemoveBlock, Orderly, Needs, From, Complete;
    RemoveOrderly(name);
    CalmTakesExactly(UserStage.RemoveBlock(name), 0, w);
  }

  ghost function NamesFrom(items: seq<string>, i: nat): set<string> {
    set j | i <= j < |items| :: items[j]
  }

  lemma NamesNext(items: seq<string>, i: nat)
    requires i < |items|
    ensures NamesFrom(items, i) == {items[i]} + NamesFrom(items, i + 1)
    ensures LinksOf(NamesFrom(items, i)) == Links(items[i]) + LinksOf(NamesFrom(items, i + 1))
  {
    assert NamesFrom(items, i) == {items[i]} + NamesFrom(items, i + 1);
  }

  /** The first removal leaves the other users as complete as they were. */
  lemma FirstGone(items: seq<string>, i: nat, before: map<Key, Obj>)
    requires i < |items| && AllDifferent(items)
    ensures forall n :: n in NamesFrom(items, i + 1) ==>
              (Complete(before - Links(items[i]), n) <==> Complete(before, n))
    ensures (forall n :: n in NamesFrom(items, i) ==> Complete(before, n)) <==>
            Complete(before, items[i]) && forall n :: n in NamesFrom(items, i + 1) ==> Complete(before, n)
    ensures before - Links(items[i]) - LinksOf(NamesFrom(items, i + 1)) == before - LinksOf(NamesFrom(items, i))
  {
    hide Complete, Links, LinksOf;
    NamesNext(items, i);
    forall n | n in NamesFrom(items, i + 1)
      ensures Complete(before - Links(items[i]), n) <==> Complete(before, n)
    {
      CompleteApart(before, items[i], n);
    }
  }

  lemma NobodyLeft(items: seq<string>, w: World)
    requires Calm(w)
    ensures var a, names := Run(Flat(UserStage.AllRemovals(items), |items|), 0, w), NamesFrom(items, |items|);
            names == {} && LinksOf(names) == {} && a == Answer(w, Done)
  {
    UserStage.Nothing(w);
    assert NamesFrom(items, |items|) == {};
    assert LinksOf({}) == {};
    hide Run, LinksOf, NamesFrom;
  }

  lemma RemovalsNext(items: seq<string>, i: nat, w: World)
    requires i < |items|
    ensures var a := Run(UserStage.RemoveBlock(items[i]), 0, w);
            Run(Flat(UserStage.AllRemovals(items), i), 0, w) ==
            if a.r == Done then Run(Flat(UserStage.AllRemovals(items), i + 1), 0, a.w) else a
  {
    hide Run, UserStage.RemoveBlock;
    var blocks := UserStage.AllRemovals(items);
    RunConcat(blocks[i], Flat(blocks, i + 1), 0, w);
  }

  lemma {:induction false} CalmRemovalsAny(items: seq<string>, i: nat, w: World)
    requires i <= |items| && AllDifferent(items) && Calm(w)
    ensures var a, names := Run(Flat(UserStage.AllRemovals(items), i), 0, w), NamesFrom(items, i);
            && (a.r == Done <==> forall n :: n in names ==> Complete(w.store, n))
            && (a.r == Done ==> Calm(a.w) && a.w.store == w.store - LinksOf(names))
    decreases |items| - i
  {
    hide Do, Run, Complete, Links, LinksOf, NamesFrom, AllDifferent, Flat, Calm, UserStage.RemoveBlock,
         UserStage.AllRemovals;
    if i == |items| {
      NobodyLeft(items, w);
    } else {
      FirstGone(items, i, w.store);
      RemovalsNext(items, i, w);
      CalmRemoveAny(items[i], w);
      var a := Run(UserStage.RemoveBlock(items[i]), 0, w);
      if a.r == Done {
        CalmRemovalsAny(items, i + 1, a.w);
      }
    }
  }

  /** A user's four objects. */
  function Four(name: string): set<Key> {
    {Key(User, "", name), Key(RoleBinding, "workshop-infra", name),
     Key(Identity, "", "htpass-workshop-users:" + name),
     Key(UserIdentityMapping, "", "htpass-workshop-users:" + name)}
  }

  lemma FourLinks(name: string, store: map<Key, Obj>)
    ensures Four(name) == Links(name)
    ensures Complete(store, name) <==> Four(name) <= store.Keys
  {
    var k0, k1, k2, k3 := Link(name, 0), Link(name, 1), Link(name, 2), Link(name, 3);
    assert Four(name) == {k0, k1, k2, k3};
    hide Link, Four;
  }

  /** Every labelled user has all four objects, and the htpasswd secret is there. */
  ghost predicate UsersThere(store: map<Key, Obj>) {
    && (forall n :: IsManaged(store, n) ==> Four(n) <= store.Keys)
    && Key(Secret, "openshift-config", "htpass-workshop-users") in store
  }

  ghost function UserKeys(store: map<Key, Obj>): set<Key> {
    (set n, k | n in Managed(store) && k in Four(n) :: k)
    + {Key(Secret, "openshift-config", "htpass-workshop-users")}
  }

  lemma UserKeysLinks(store: map<Key, Obj>)
    ensures UserKeys(store) == LinksOf(Managed(store)) + {Htpasswd.SECRET}
    ensures UsersThere(store) <==> (forall n :: n in Managed(store) ==> Complete(store, n)) && Htpasswd.SECRET in store
  {
    forall n ensures Four(n) == Links(n) && (Complete(store, n) <==> Four(n) <= store.Keys) { FourLinks(n, store); }
    hide Four, Links, Complete;
  }

  lemma UsersGone(listed: seq<string>, w: World)
    requires Calm(w) && UserStage.Listed(listed, DoList(w))
    ensures var a := Run(UserStage.DeletePlan(listed), 0, DoList(w).w);
            && (a.r == Done <==> UsersThere(w.store))
            && (a.r == Done ==> Calm(a.w) && a.w.store == w.store - UserKeys(w.store))
  {
    hide Do, Run, DoList, UserStage.AllRemovals, Complete, Links, LinksOf, UserKeys, UsersThere;
    ListKeeps(w);
    UserKeysLinks(w.store);
    var l := DoList(w).w;
    assert Ordering(listed, Managed(w.store));
    assert NamesFrom(listed, 0) == Managed(w.store);
    CalmRemovalsAny(listed, 0, l);
    RunConcat(Flat(UserStage.AllRemovals(listed), 0), [RemoveStep(Htpasswd.SECRET)], 0, l);
    var a := Run(Flat(UserStage.AllRemovals(listed), 0), 0, l);
    if a.r == Done {
      UserStage.OneStep(RemoveStep(Htpasswd.SECRET), a.w);
      CalmStepTakes(RemoveStep(Htpasswd.SECRET), a.w);
      SecretApart(Managed(w.store));
    }
  }

  lemma SecretApart(names: set<string>)
    ensures Htpasswd.SECRET !in LinksOf(names)
  {
    if Htpasswd.SECRET in LinksOf(names) {
      var n :| n in names && Htpasswd.SECRET in Links(n);
      LinksDisjoint(n, n);
    }
  }

  /* ---------- The whole cleanup ---------- */

  /** What must be there for the cleanup to end well. */
  ghost predicate Deletable(spec: Spec, store: map<Key, Obj>) {
    && UsersThere(store) && PortalNeeds(spec) <= store.Keys && ProjectsEnd(spec, store)
    && KeySet(NEXUS) <= store.Keys && VaultNeeds() <= store.Keys
  }

  ghost function Doomed(spec: Spec, store: map<Key, Obj>): set<Key> {
    UserKeys(store) + KeySet(Portal(spec)) + KeySet(NEXUS) + KeySet(VAULT)
  }

  /** The parts of the cleanup do not take each other's objects. */
  lemma PartsApart(spec: Spec)
    ensures PortalNeeds(spec) <= KeySet(Portal(spec))
    ensures KeySet(Portal(spec)) !! KeySet(NEXUS) && KeySet(Portal(spec)) !! KeySet(VAULT)
    ensures KeySet(NEXUS) !! KeySet(VAULT)
    ensures forall j: nat :: Numbered(Namespace, "", spec.staging, j) !in KeySet(Portal(spec))
  {
    forall k | k in Portal(spec) ensures k !in NEXUS && k !in VAULT && k.kind != Namespace {
      HomePortal(spec, k);
      if k in NEXUS { HomeNexus(k); }
      if k in VAULT { HomeVault(k); }
    }
    forall k | k in NEXUS ensures k !in VAULT {
      HomeNexus(k);
      if k in VAULT { HomeVault(k); }
    }
  }

  lemma UsersInside(store: map<Key, Obj>, k: Key)
    requires k in UserKeys(store)
    ensures UserSpace(k)
  {
  }

  lemma PortalOutside(spec: Spec, k: Key)
    requires k in Portal(spec)
    ensures !UserSpace(k)
  {
  }

  lemma NexusOutside(j: nat)
    requires j < |NEXUS|
    ensures !UserSpace(NEXUS[j])
  {
  }

  lemma VaultOutside(j: nat)
    requires j < |VAULT|
    ensures !UserSpace(VAULT[j])
  {
  }

  lemma OutsideUsers(spec: Spec)
    ensures forall k :: k in Portal(spec) || k in NEXUS || k in VAULT ==> !UserSpace(k)
    ensures forall j: nat :: !UserSpace(Numbered(Namespace, "", spec.staging, j))
  {
    forall k | k in Portal(spec) || k in NEXUS || k in VAULT ensures !UserSpace(k) {
      if k in Portal(spec) {
        PortalOutside(spec, k);
      } else if k in NEXUS {
        var j :| 0 <= j < |NEXUS| && NEXUS[j] == k;
        NexusOutside(j);
      } else {
        var j :| 0 <= j < |VAULT| && VAULT[j] == k;
        VaultOutside(j);
      }
    }
    hide UserSpace, Portal;
    forall j: nat ensures !UserSpace(Numbered(Namespace, "", spec.staging, j)) {
      Orphans.SpaceNotUsers(spec.staging, j);
    }
  }

  /** The cleanup behind the users. */
  lemma TearGone(spec: Spec, w: World)
    requires Calm(w)
    ensures var a := Run(TearPlan(spec), 0, w);
            && (a.r == Done <==> PortalNeeds(spec) <= w.store.Keys && ProjectsEnd(spec, w.store)
                                 && KeySet(NEXUS) <= w.store.Keys && VaultNeeds() <= w.store.Keys)
            && (a.r == Done ==>
                 a.w.store == w.store - KeySet(Portal(spec)) - KeySet(NEXUS) - KeySet(VAULT))
  {
    hide Do, Run, Flat, PortalStage.DeletePlan, NexusStage.DeletePlan, VaultStage.DeletePlan, ProjectsEnd, KeySet,
         PortalNeeds, Portal;
    var ss := TearStages(spec);
    PartsApart(spec);
    StageLemma(ss, 0, w);
    PortalGone(spec, w);
    var a := Run(ss[0], 0, w);
    if a.r == Done {
      assert ProjectsEnd(spec, a.w.store) <==> ProjectsEnd(spec, w.store) by { EndKept(spec, w.store); }
      StageLemma(ss, 1, a.w);
      ProjectsDone(spec, a.w);
      var b := Run(ss[1], 0, a.w);
      if b.r == Done {
        StageLemma(ss, 2, b.w);
        NexusGone(b.w);
        var c := Run(ss[2], 0, b.w);
        if c.r == Done {
          StageLemma(ss, 3, c.w);
          CalmForeign(ss[3], 0, c.w);
          var d := Run(ss[3], 0, c.w);
          StageLemma(ss, 4, d.w);
          VaultGone(d.w);
          var e := Run(ss[4], 0, d.w);
          if e.r == Done {
            StageLemma(ss, 5, e.w);
            CalmForeign(ss[5], 0, e.w);
            EndOfStages(ss, Run(ss[5], 0, e.w).w);
          }
        }
      }
    }
  }

  lemma EndKept(spec: Spec, store: map<Key, Obj>)
    ensures ProjectsEnd(spec, store - KeySet(Portal(spec))) <==> ProjectsEnd(spec, store)
  {
    PartsApart(spec);
    hide KeySet, Portal;
  }

  /** What deleteUsers takes makes no difference to what the rest needs. */
  lemma UsersFirst(spec: Spec, store: map<Key, Obj>)
    ensures var left := store - UserKeys(store);
            && (PortalNeeds(spec) <= left.Keys <==> PortalNeeds(spec) <= store.Keys)
            && (KeySet(NEXUS) <= left.Keys <==> KeySet(NEXUS) <= store.Keys)
            && (VaultNeeds() <= left.Keys <==> VaultNeeds() <= store.Keys)
            && (ProjectsEnd(spec, left) <==> ProjectsEnd(spec, store))
  {
    OutsideUsers(spec);
    PartsApart(spec);
    hide UserSpace, UserKeys, Portal, PortalNeeds, NEXUS, VAULT;
    forall k | k in UserKeys(store) ensures UserSpace(k) { UsersInside(store, k); }
    assert UserKeys(store) !! KeySet(Portal(spec));
    assert UserKeys(store) !! KeySet(NEXUS);
    assert UserKeys(store) !! KeySet(VAULT);
  }

  /** Without faults the cleanup ends well exactly when every labelled user has all four objects, the htpasswd secret,
      redis and the portal (but for its deployment), Nexus and Vault (but for the security context) are there, and
      projects are off or a namespace numbered below the user count is missing. Then none of these is left, and
      everything else is as it was. */
  lemma DeletionExact(spec: Spec, ch: Choice, w: World)
    requires Calm(w) && UserStage.Listed(ch.listed, DoList(w))
    ensures var a := Teardown(spec, ch, w);
            && (a.r == Done <==> Deletable(spec, w.store))
            && (a.r == Done ==> a.w.store == w.store - Doomed(spec, w.store))
  {
    hide Run, DoList, UserStage.DeletePlan, TearPlan, UserStage.Listed, PortalNeeds, VaultNeeds, KeySet, ProjectsEnd,
         UsersThere, UserKeys, Portal;
    UsersGone(ch.listed, w);
    UsersFirst(spec, w.store);
    var u := Run(UserStage.DeletePlan(ch.listed), 0, DoList(w).w);
    if u.r == Done {
      TearGone(spec, u.w);
    }
  }

  /** The Workshop as a deleting pass reads it. */
  ghost function Marked(w: World): Resource
    requires Deletes(w)
  {
    DoGetWorkshop(w).w.cr.value
  }

  lemma DeletingStart(w: World, ch: Choice)
    requires Deletes(w) && Possible(w, ch)
    ensures var s := Foreign(DoGetWorkshop(w).w, "console");
            (Calm(w) ==> Calm(s.w)) && s.w.store == w.store && UserStage.Listed(ch.listed, DoList(s.w))
            && Pass(w, ch) == Finalize(Marked(w), ch, s.w)
  {
    hide DoGetWorkshop, Foreign, DoList, Finalize, UserStage.Listed;
    OpeningFacts(w);
    if Calm(w) { OpeningCalm(w); }
    DeletingPass(w, ch);
  }

  /** So a fault-free pass that deletes, and whose cleanup has what it needs, leaves no labelled user's objects, no
      secret, nothing of portal, Nexus and Vault, and everything else as it was. */
  lemma PassDeletes(w: World, ch: Choice)
    requires Deletes(w) && Calm(w) && Possible(w, ch) && Deletable(Marked(w).spec, w.store)
    ensures Pass(w, ch).w.store == w.store - Doomed(Marked(w).spec, w.store)
  {
    hide Pass, Deletes, DoGetWorkshop, Foreign, Teardown, DoUpdateWorkshop, Deletable, Doomed, Reconcile.Possible,
         UserStage.Listed, DoList;
    var s, copy := Foreign(DoGetWorkshop(w).w, "console"), Marked(w);
    DeletingStart(w, ch);
    DeletionExact(copy.spec, ch, s.w);
    UpdateWorkshopFacts(Teardown(copy.spec, ch, s.w).w, copy.(finalizers := Dropped(copy.finalizers)));
  }
}
