/** The cleanup of a deleted Workshop under any faults: what it can take, and in which order. */
module Removal {
  import opened World
  import opened Steps
  import opened Scans
  import opened Plans
  import opened Progress
  import opened Frame
  import opened Undo
  import opened Accounts
  import opened Reconcile
  import opened Finalizer
  import opened MainFacts
  import opened GateRuns
  import opened UserRuns
  import opened Orphans
  import opened Inventory
  import opened Installed
  import opened Deletion
  import Htpasswd
  import UserStage
  import PortalStage
  import NexusStage
  import VaultStage

  /* ---------- The removals of a plan, in order ---------- */

  /** The plan read as if it made what it takes. */
  function Mirror(p: Plan): Plan {
    seq(|p|, i requires 0 <= i < |p| => if Pulling(p[i]) then EnsureStep(p[i].key, Bare) else ForeignStep(""))
  }

  function Taken(p: Plan): seq<Key> {
    Made(Mirror(p))
  }

  lemma TakenConcat(a: Plan, b: Plan)
    ensures Taken(a + b) == Taken(a) + Taken(b)
  {
    assert Mirror(a + b) == Mirror(a) + Mirror(b);
    MadeConcat(Mirror(a), Mirror(b));
  }

  lemma TakenAll(p: Plan, keys: seq<Key>)
    requires |p| == |keys| && forall i :: 0 <= i < |p| ==> Pulling(p[i]) && p[i].key == keys[i]
    ensures Taken(p) == keys
  {
    MadeAll(Mirror(p), keys);
  }

  lemma TakenNone(p: Plan)
    requires forall i :: 0 <= i < |p| ==> !Pulling(p[i])
    ensures Taken(p) == []
  {
    MadeNone(Mirror(p));
  }

  lemma {:induction false} TakenFlat(blocks: seq<Plan>, groups: seq<seq<Key>>, i: nat)
    requires i <= |blocks| == |groups| && forall j :: 0 <= j < |blocks| ==> Taken(blocks[j]) == groups[j]
    ensures Taken(Flat(blocks, i)) == Joined(groups, i)
    decreases |blocks| - i
  {
    if i < |blocks| {
      TakenConcat(blocks[i], Flat(blocks, i + 1));
      hide Taken;
      TakenFlat(blocks, groups, i + 1);
    } else {
      TakenNone([]);
    }
  }

  lemma StepTook(s: Step, w: World)
    requires s.RemoveStep? && Do(s, w).r == Done
    ensures s.key !in Do(s, w).w.store
  {
    DeleteFacts(w, s.key);
  }

  lemma {:induction false} RunTook(p: Plan, i: nat, h: nat, w: World)
    requires i <= h < |p| && AllTaking(p) && Run(p, i, w).r == Done && p[h].RemoveStep?
    ensures p[h].key !in Run(p, i, w).w.store
    decreases h - i
  {
    RunNext(p, i, w);
    var a := Do(p[i], w);
    hide Run;
    if i == h {
      StepTook(p[h], w);
      RunShrinks(p, i + 1, a.w);
    } else {
      RunTook(p, i + 1, h, a.w);
    }
  }

  /** Whatever fails: an object that a removal plan has taken away is gone only if everything the plan removes before
      it is. An object that is removed only if it is found may stay, as a look that fails finds nothing. */
  lemma RunGone(p: Plan, w: World, i: nat, j: nat)
    requires AllTaking(p) && i < j < |Taken(p)| && Taken(p)[j] !in Taken(p)[..j]
    requires forall s :: s in p && s.DropProjects? ==> Avoids(s, Taken(p)[j])
    requires forall s :: s in p && Pulling(s) && s.key == Taken(p)[i] ==> s.RemoveStep?
    requires Taken(p)[j] in w.store && Taken(p)[j] !in Run(p, 0, w).w.store
    ensures Taken(p)[i] !in Run(p, 0, w).w.store
  {
    hide Made, Run;
    var k := Taken(p)[j];
    var c := MakerOf(Mirror(p), j);
    var a, b := p[..c], p[c..];
    assert p == a + b;
    assert Mirror(p)[..c] == Mirror(a);
    forall x | 0 <= x < |a| ensures Avoids(a[x], k) { AvoidsBefore(a, x, k, p); }
    RunAvoids(a, 0, w, k);
    RunConcat(a, b, 0, w);
    var first := Run(a, 0, w);
    assert first.r == Done;
    assert Made(Mirror(a))[i] == Taken(p)[i];
    InMade(Mirror(a), Taken(p)[i]);
    var s :| s in Mirror(a) && Makes(s) == Some(Taken(p)[i]);
    var h :| 0 <= h < |a| && Mirror(a)[h] == s;
    assert a[h] in p;
    RunTook(a, 0, h, w);
    RunShrinks(b, 0, first.w);
  }

  lemma AvoidsBefore(a: Plan, x: nat, k: Key, p: Plan)
    requires x < |a| <= |p| && a[x] == p[x] && AllTaking(p) && k !in Made(Mirror(a))
    requires forall s :: s in p && s.DropProjects? ==> Avoids(s, k)
    ensures Avoids(a[x], k)
  {
    assert a[x] in p && Taking(p[x]);
    if Pulling(a[x]) && a[x].key == k {
      assert Mirror(a)[x] in Mirror(a) && Makes(Mirror(a)[x]) == Some(k);
      InMade(Mirror(a), k);
    }
  }

  /* ---------- The order of the cleanup ---------- */

  function UserOrder(name: string): seq<Key> {
    [Key(UserIdentityMapping, "", "htpass-workshop-users:" + name),
     Key(Identity, "", "htpass-workshop-users:" + name),
     Key(RoleBinding, "workshop-infra", name), Key(User, "", name)]
  }

  function EachUser(names: seq<string>): seq<seq<Key>> {
    seq(|names|, i requires 0 <= i < |names| => UserOrder(names[i]))
  }

  function PortalOrder(spec: Spec): seq<Key> {
    [Key(Route, spec.namespace, "portal"), Key(Service, spec.namespace, "portal"),
     Key(Deployment, spec.namespace, "portal"), Key(Service, spec.namespace, "redis"),
     Key(Deployment, spec.namespace, "redis"), Key(PersistentVolumeClaim, spec.namespace, "redis"),
     Key(Secret, spec.namespace, "redis")]
  }

  const NEXUS_ORDER: seq<Key> :=
    [Key(Kind.Nexus, "nexus", "nexus"), Key(Deployment, "nexus", "nexus-operator"),
     Key(ClusterRoleBinding, "", "nexus-operator"), Key(ClusterRole, "", "nexus-operator"),
     Key(ServiceAccount, "nexus", "nexus-operator"), Key(CustomResourceDefinition, "", "nexus.gpte.opentlc.com"),
     Key(Namespace, "", "nexus")]

  const SERVER_ORDER: seq<Key> :=
    [Key(StatefulSet, "vault", "vault"), Key(Service, "vault", "vault"), Key(Service, "vault", "vault-internal"),
     Key(ClusterRoleBinding, "", "vault-server-binding"), Key(SecurityContextConstraints, "", "vault"),
     Key(ServiceAccount, "vault", "vault"), Key(ConfigMap, "vault", "vault-config")]

  const INJECTOR_ORDER: seq<Key> :=
    [Key(MutatingWebhook, "", "vault-agent-injector-cfg"), Key(Deployment, "vault", "vault-agent-injector"),
     Key(Service, "vault", "vault-agent-injector"), Key(ClusterRoleBinding, "", "vault-agent-injector"),
     Key(ClusterRole, "", "vault-agent-injector"), Key(SecurityContextConstraints, "", "vault"),
     Key(ServiceAccount, "vault", "vault-agent-injector")]

  function VaultOrder(): seq<Key> {
    SERVER_ORDER + INJECTOR_ORDER + [Key(Namespace, "", "vault")]
  }

  /** Users in list order, the secret, the portal, Nexus, Vault; the removal of projects, between portal and Nexus, has
      an order of its own. */
  function RemovalOrder(spec: Spec, listed: seq<string>): seq<Key> {
    Joined(EachUser(listed), 0) + [Key(Secret, "openshift-config", "htpass-workshop-users")]
    + (PortalOrder(spec) + (NEXUS_ORDER + VaultOrder()))
  }

  lemma TakenUser(name: string)
    ensures Taken(UserStage.RemoveBlock(name)) == UserOrder(name)
  {
    var p := UserStage.RemoveBlock(name);
    assert p == p[..1] + p[1..];
    TakenConcat(p[..1], p[1..]);
    TakenNone(p[..1]);
    TakenAll(p[1..], UserOrder(name));
  }

  lemma TakenUsers(listed: seq<string>)
    ensures Taken(UserStage.DeletePlan(listed)) ==
            Joined(EachUser(listed), 0) + [Key(Secret, "openshift-config", "htpass-workshop-users")]
  {
    hide Taken, UserStage.RemoveBlock, UserOrder;
    var blocks := UserStage.AllRemovals(listed);
    forall j | 0 <= j < |blocks| ensures Taken(blocks[j]) == EachUser(listed)[j] { TakenUser(listed[j]); }
    TakenFlat(blocks, EachUser(listed), 0);
    TakenAll([RemoveStep(Htpasswd.SECRET)], [Htpasswd.SECRET]);
    TakenConcat(Flat(blocks, 0), [RemoveStep(Htpasswd.SECRET)]);
  }

  lemma TakenPortal(spec: Spec)
    ensures Taken(PortalStage.DeletePlan(spec)) == PortalOrder(spec)
  {
    hide Taken;
    TakenAll(PortalStage.DeletePlan(spec), PortalOrder(spec));
  }

  lemma TakenNexus()
    ensures Taken(NexusStage.DeletePlan()) == NEXUS_ORDER
  {
    hide Taken, NexusStage.DeletePlan;
    NexusLength();
    forall j | 0 <= j < 7 ensures NexusStage.DeletePlan()[j] == RemoveStep(NEXUS_ORDER[j]) { NexusStep(j); }
    TakenAll(NexusStage.DeletePlan(), NEXUS_ORDER);
  }

  lemma TakenVault()
    ensures Taken(VaultStage.DeletePlan()) == VaultOrder()
  {
    hide Taken;
    var last := [RemoveStep(VaultStage.NAMESPACE)];
    TakenAll(VaultStage.DropServer(), SERVER_ORDER);
    TakenAll(VaultStage.DropAgent(), INJECTOR_ORDER);
    TakenAll(last, [VaultStage.NAMESPACE]);
    TakenConcat(VaultStage.DropServer(), VaultStage.DropAgent());
    TakenConcat(VaultStage.DropServer() + VaultStage.DropAgent(), last);
  }

  function TearGroups(spec: Spec): seq<seq<Key>> {
    [PortalOrder(spec), [], NEXUS_ORDER, [], VaultOrder(), []]
  }

  lemma TakenTear(spec: Spec)
    ensures Taken(TearPlan(spec)) == Joined(TearGroups(spec), 0)
  {
    hide Taken, PortalStage.DeletePlan, NexusStage.DeletePlan, VaultStage.DeletePlan, Flat, Joined, PortalOrder;
    var ss := TearStages(spec);
    forall j | 0 <= j < |ss| ensures Taken(ss[j]) == TearGroups(spec)[j] {
      if j == 0 { TakenPortal(spec); }
      else if j == 2 { TakenNexus(); }
      else if j == 4 { TakenVault(); }
      else { TakenNone(ss[j]); }
    }
    TakenFlat(ss, TearGroups(spec), 0);
  }

  lemma TearJoined(g: seq<seq<Key>>)
    requires |g| == 6 && g[1] == g[3] == g[5] == []
    ensures Joined(g, 0) == g[0] + (g[2] + g[4])
  {
    assert Joined(g, 6) == [];
    JoinedNext(g, 5);
    assert Joined(g, 4) == g[4];
    JoinedNext(g, 3);
    JoinedNext(g, 1);
  }

  /** The whole plan of the cleanup takes away exactly these objects, in this order. */
  lemma TakenAltogether(spec: Spec, listed: seq<string>)
    ensures Taken(UserStage.DeletePlan(listed) + TearPlan(spec)) == RemovalOrder(spec, listed)
  {
    hide Taken, UserStage.DeletePlan, TearPlan, Joined, PortalOrder, EachUser;
    TakenUsers(listed);
    TakenTear(spec);
    TearJoined(TearGroups(spec));
    TakenConcat(UserStage.DeletePlan(listed), TearPlan(spec));
  }

  lemma OrderKeys(spec: Spec, listed: seq<string>, k: Key)
    requires k in RemovalOrder(spec, listed)
    ensures UserSpace(k) || k in Portal(spec) || Component(k)
  {
    hide Joined, UserOrder, Component, UserSpace;
    InJoined(EachUser(listed), 0, k);
    if k in Joined(EachUser(listed), 0) {
      var j :| 0 <= j < |listed| && k in EachUser(listed)[j];
      OrderOfUser(listed[j], k);
    } else if k in PortalOrder(spec) {
      PortalOrderKey(spec, k);
    } else if k in NEXUS_ORDER {
      NexusOrderKey(k);
    } else if k in VaultOrder() {
      VaultOrderKey(k);
    } else {
      assert k == Htpasswd.SECRET;
      SecretOwn(k);
    }
  }

  lemma SecretOwn(k: Key)
    requires k == Htpasswd.SECRET
    ensures UserSpace(k)
  {
  }

  lemma OrderOfUser(name: string, k: Key)
    requires k in UserOrder(name)
    ensures UserSpace(k) && k in Four(name)
  {
  }

  lemma PortalOrderKey(spec: Spec, k: Key)
    requires k in PortalOrder(spec)
    ensures k in Portal(spec)
  {
  }

  lemma NexusOrderKey(k: Key)
    requires k in NEXUS_ORDER
    ensures Component(k) && k in NEXUS
  {
    var j :| 0 <= j < |NEXUS_ORDER| && NEXUS_ORDER[j] == k;
    assert k == NexusStage.KEYS[6 - j] == NEXUS[6 - j];
  }

  lemma VaultOrderAt(j: nat)
    requires j < |VaultOrder()|
    ensures VaultOrder()[j] in VAULT && exists s :: s in VaultStage.AddPlan() && s.key == VaultOrder()[j]
  {
    var there := [7, 6, 5, 4, 3, 2, 1, 15, 14, 13, 12, 11, 3, 9, 0];
    assert VaultStage.AddPlan()[there[j]].key == VaultOrder()[j] == VAULT[there[j]];
    assert VaultStage.AddPlan()[there[j]] in VaultStage.AddPlan();
  }

  lemma VaultOrderKey(k: Key)
    requires k in VaultOrder()
    ensures Component(k) && k in VAULT
  {
    var j :| 0 <= j < |VaultOrder()| && VaultOrder()[j] == k;
    VaultOrderAt(j);
  }

  /** The removal of projects takes none of these. */
  lemma ProjectsSpare(spec: Spec, listed: seq<string>, s: Step, k: Key)
    requires s in UserStage.DeletePlan(listed) + TearPlan(spec) && s.DropProjects? && k in RemovalOrder(spec, listed)
    ensures Avoids(s, k)
  {
    hide TearPlan, RemovalOrder, Avoids, UserSpace, Component, Portal;
    TheProjects(spec, listed, s);
    OrderKeys(spec, listed, k);
    if UserSpace(k) {
      ProjectTearAvoids(spec, s, k);
    } else if k in Portal(spec) {
      PortalSpared(spec, s, k);
    } else {
      ComponentSafe(spec, k);
    }
  }

  lemma PortalSpared(spec: Spec, s: Step, k: Key)
    requires s.DropProjects? && k in Portal(spec)
    ensures Avoids(s, k)
  {
  }

  lemma TheProjects(spec: Spec, listed: seq<string>, s: Step)
    requires s in UserStage.DeletePlan(listed) + TearPlan(spec) && s.DropProjects?
    ensures s == DropProjects(spec.staging, spec.Seats(), spec.projectEnabled)
  {
    hide UserStage.DeletePlan, TearPlan;
    if s in UserStage.DeletePlan(listed) {
      DeleteUsersSteps(listed);
    } else {
      TearStep(spec, s);
    }
  }

  lemma TearStep(spec: Spec, s: Step)
    requires s in TearPlan(spec)
    ensures s.DropProjects? ==> s == DropProjects(spec.staging, spec.Seats(), spec.projectEnabled)
    ensures s.DropStep? ==> s.key == Key(Deployment, spec.namespace, "portal")
                            || s.key == Key(SecurityContextConstraints, "", "vault")
  {
    hide NexusStage.DeletePlan, VaultStage.DeletePlan;
    InFlat(TearStages(spec), 0, s);
    var j :| 0 <= j < |TearStages(spec)| && s in TearStages(spec)[j];
    if j == 2 {
      var i :| 0 <= i < |NexusStage.DeletePlan()| && NexusStage.DeletePlan()[i] == s;
      NexusStep(i);
    } else if j == 4 {
      var i :| 0 <= i < |VaultStage.DeletePlan()| && VaultStage.DeletePlan()[i] == s;
      VaultStep(i);
    }
  }

  lemma DropsOnly(spec: Spec, listed: seq<string>, s: Step)
    requires s in UserStage.DeletePlan(listed) + TearPlan(spec) && s.DropStep?
    ensures s.key == Key(Deployment, spec.namespace, "portal") || s.key == Key(SecurityContextConstraints, "", "vault")
  {
    hide UserStage.DeletePlan, TearPlan, UserStage.AllRemovals;
    if s in UserStage.DeletePlan(listed) {
      UsersRemove(listed, s);
    } else {
      TearStep(spec, s);
    }
  }

  lemma UsersRemove(listed: seq<string>, s: Step)
    requires s in UserStage.DeletePlan(listed)
    ensures s.PeekStep? || s.RemoveStep?
  {
    hide UserStage.RemoveBlock;
    var blocks := UserStage.AllRemovals(listed);
    InFlat(blocks, 0, s);
    if s in Flat(blocks, 0) {
      var j :| 0 <= j < |blocks| && s in blocks[j];
      BlockRemoves(listed[j], s);
    }
  }

  lemma BlockRemoves(name: string, s: Step)
    requires s in UserStage.RemoveBlock(name)
    ensures s.PeekStep? || s.RemoveStep?
  {
  }

  lemma TeardownPlan(spec: Spec, ch: Choice, w: World)
    ensures Teardown(spec, ch, w) == Run(UserStage.DeletePlan(ch.listed) + TearPlan(spec), 0, DoList(w).w)
    ensures AllTaking(UserStage.DeletePlan(ch.listed) + TearPlan(spec))
  {
    hide Run, UserStage.DeletePlan, TearPlan, DoList;
    RunConcat(UserStage.DeletePlan(ch.listed), TearPlan(spec), 0, DoList(w).w);
    DeleteTaking(ch.listed);
    TearTaking(spec);
  }

  /** Whatever fails in the cleanup: if an object of the removal order has been taken away, then everything the order
      lists before it is gone, but for the portal's deployment and Vault's security context, which are removed only if
      a look finds them. */
  lemma TornInOrder(spec: Spec, ch: Choice, w: World, i: nat, j: nat)
    requires var all := RemovalOrder(spec, ch.listed); i < j < |all| && all[j] !in all[..j]
    requires var k := RemovalOrder(spec, ch.listed)[i];
             k != Key(Deployment, spec.namespace, "portal") && k != Key(SecurityContextConstraints, "", "vault")
    requires var k := RemovalOrder(spec, ch.listed)[j]; k in w.store && k !in Teardown(spec, ch, w).w.store
    ensures RemovalOrder(spec, ch.listed)[i] !in Teardown(spec, ch, w).w.store
  {
    hide Taken, Run, UserStage.DeletePlan, TearPlan, DoList, RemovalOrder, Teardown, Avoids, AllTaking;
    var p := UserStage.DeletePlan(ch.listed) + TearPlan(spec);
    TeardownPlan(spec, ch, w);
    TakenAltogether(spec, ch.listed);
    ListKeeps(w);
    forall s | s in p && s.DropProjects? ensures Avoids(s, Taken(p)[j]) {
      ProjectsSpare(spec, ch.listed, s, Taken(p)[j]);
    }
    forall s | s in p && Pulling(s) && s.key == Taken(p)[i] ensures s.RemoveStep? {
      if s.DropStep? { DropsOnly(spec, ch.listed, s); }
    }
    RunGone(p, DoList(w).w, i, j);
  }

  /* ---------- What the cleanup can take ---------- */

  /** The objects of the projects numbered from the user count on, with projects switched on. */
  ghost predicate SpareProject(spec: Spec, k: Key) {
    spec.projectEnabled && exists id: nat :: 1 <= id && spec.Seats() <= id && k in ProjectKeys(spec.staging, id)
  }

  ghost predicate Spares(s: Step, k: Key) {
    && Taking(s) && (Pulling(s) ==> s.key != k)
    && (s.DropProjects? && s.enabled ==>
          forall id: nat :: 1 <= id && s.userId <= id ==> k !in ProjectKeys(s.staging, id))
  }

  lemma StepSpares(s: Step, w: World, k: Key)
    requires Spares(s, k)
    ensures SameAt(w.store, Do(s, w).w.store, k)
  {
    if s.DropProjects? {
      DropSpares(w, s.staging, s.userId, s.enabled, k);
    } else {
      StepAvoids(s, w, k);
    }
  }

  lemma DropSpares(w: World, staging: string, userId: nat, enabled: bool, k: Key)
    requires enabled ==> forall id: nat :: 1 <= id && userId <= id ==> k !in ProjectKeys(staging, id)
    ensures SameAt(w.store, DeleteFrom(w, staging, userId, enabled, 1).w.store, k)
  {
    hide DeleteFrom;
    if enabled {
      var m, n := DeleteShape(w, staging, userId, enabled, 1);
      var some := ProjectKeys(staging, m)[..n];
      assert forall x :: x in KeySet(some) ==> x in ProjectKeys(staging, m);
    } else {
      ScanOnly(w, staging, userId, 1);
    }
  }

  lemma {:induction false} RunSpares(p: Plan, i: nat, w: World, k: Key)
    requires i <= |p| && forall s :: s in p ==> Spares(s, k)
    ensures SameAt(w.store, Run(p, i, w).w.store, k)
    decreases |p| - i
  {
    hide Do, Spares;
    if i < |p| {
      assert p[i] in p;
      StepSpares(p[i], w, k);
      RunNext(p, i, w);
      hide Run;
      if Do(p[i], w).r == Done {
        RunSpares(p, i + 1, Do(p[i], w).w, k);
      }
    }
  }

  lemma InTaken(p: Plan, s: Step)
    requires s in p && Pulling(s)
    ensures s.key in Taken(p)
  {
    var i :| 0 <= i < |p| && p[i] == s;
    assert Mirror(p)[i] in Mirror(p) && Makes(Mirror(p)[i]) == Some(s.key);
    InMade(Mirror(p), s.key);
  }

  lemma OrderDoomed(spec: Spec, listed: seq<string>, store: map<Key, Obj>, k: Key)
    requires k in RemovalOrder(spec, listed) && forall n :: n in listed ==> n in Managed(store)
    ensures k in Doomed(spec, store)
  {
    hide Joined, UserOrder, Four, Managed;
    InJoined(EachUser(listed), 0, k);
    if k in Joined(EachUser(listed), 0) {
      var j :| 0 <= j < |listed| && k in EachUser(listed)[j];
      OrderOfUser(listed[j], k);
      assert listed[j] in Managed(store) && k in Four(listed[j]);
    } else if k in PortalOrder(spec) {
      PortalOrderKey(spec, k);
    } else if k in NEXUS_ORDER {
      NexusOrderKey(k);
    } else if k in VaultOrder() {
      VaultOrderKey(k);
    }
  }

  /** Whatever fails: the cleanup takes nothing but the doomed objects and, with projects on, those of the projects
      numbered from the user count on. */
  lemma TornOnly(spec: Spec, ch: Choice, w: World, k: Key)
    requires UserStage.Listed(ch.listed, DoList(w)) && k !in Doomed(spec, w.store) && !SpareProject(spec, k)
    ensures SameAt(w.store, Teardown(spec, ch, w).w.store, k)
  {
    hide Taken, Run, UserStage.DeletePlan, TearPlan, DoList, RemovalOrder, Teardown, AllTaking, Doomed, ProjectKeys,
         Taking, Managed;
    var p := UserStage.DeletePlan(ch.listed) + TearPlan(spec);
    TeardownPlan(spec, ch, w);
    TakenAltogether(spec, ch.listed);
    ListKeeps(w);
    if k in RemovalOrder(spec, ch.listed) { OrderDoomed(spec, ch.listed, w.store, k); }
    forall s | s in p ensures Spares(s, k) {
      if Pulling(s) { InTaken(p, s); }
      if s.DropProjects? { TheProjects(spec, ch.listed, s); }
      StepTaking(p, s);
    }
    RunSpares(p, 0, DoList(w).w, k);
  }

  lemma StepTaking(p: Plan, s: Step)
    requires AllTaking(p) && s in p
    ensures Taking(s)
  {
  }

  /** And so does a pass that deletes. */
  lemma PassTakesOnly(w: World, ch: Choice, k: Key)
    requires Deletes(w) && Possible(w, ch) && k !in Doomed(Marked(w).spec, w.store) && !SpareProject(Marked(w).spec, k)
    ensures SameAt(w.store, Pass(w, ch).w.store, k)
  {
    hide Pass, Deletes, DoGetWorkshop, Foreign, Teardown, DoUpdateWorkshop, Doomed, Reconcile.Possible,
         UserStage.Listed, DoList, SpareProject;
    var s, copy := Foreign(DoGetWorkshop(w).w, "console"), Marked(w);
    DeletingStart(w, ch);
    TornOnly(copy.spec, ch, s.w, k);
    UpdateWorkshopFacts(Teardown(copy.spec, ch, s.w).w, copy.(finalizers := Dropped(copy.finalizers)));
  }

  /* ---------- The foreign parts ---------- */

  const FOREIGN_PARTS :=
    ["bookbag", "gitea", "pipelines", "gitops", "codeready", "servicemesh", "serverless", "certmanager"]

  lemma {:induction false} RunAnswered(p: Plan, i: nat, w: World, name: string)
    requires i <= |p| && Run(p, i, w).r == Done && ForeignStep(name) in p[i..]
    ensures Answered(w.trail, Run(p, i, w).w.trail, name)
    decreases |p| - i
  {
    hide Do, Follows;
    var a := Do(p[i], w);
    RunNext(p, i, w);
    hide Run;
    assert p[i..] == [p[i]] + p[i + 1..];
    StepFollows(p[i], w);
    RunLonger(p, i + 1, a.w);
    if p[i] == ForeignStep(name) {
      DoForeign(name, w);
      ForeignEvident(w, name);
    } else {
      RunAnswered(p, i + 1, a.w, name);
    }
  }

  lemma DoForeign(name: string, w: World)
    ensures Do(ForeignStep(name), w) == Foreign(w, name)
  {
  }

  lemma RunLonger(p: Plan, i: nat, w: World)
    requires i <= |p|
    ensures w.trail <= Run(p, i, w).w.trail
  {
    RunFollows(p, i, w);
    hide Run;
  }

  lemma TearForeign(spec: Spec, j: nat, name: string)
    requires j < |TearStages(spec)| && ForeignStep(name) in TearStages(spec)[j]
    ensures ForeignStep(name) in TearPlan(spec)
  {
    hide TearStages;
    InFlat(TearStages(spec), 0, ForeignStep(name));
  }

  lemma TearForeigns(spec: Spec)
    ensures forall name :: name in FOREIGN_PARTS ==> ForeignStep(name) in TearPlan(spec)
  {
    hide TearPlan, PortalStage.DeletePlan, NexusStage.DeletePlan, VaultStage.DeletePlan;
    var ss := TearStages(spec);
    assert ss[1][1] == ForeignStep("bookbag") && ss[5][0] == ForeignStep("certmanager");
    TearForeign(spec, 1, "bookbag");
    TearForeign(spec, 3, "gitea");
    TearForeign(spec, 3, "pipelines");
    TearForeign(spec, 3, "gitops");
    TearForeign(spec, 3, "codeready");
    TearForeign(spec, 3, "servicemesh");
    TearForeign(spec, 3, "serverless");
    TearForeign(spec, 5, "certmanager");
  }

  /** A cleanup that ends well has called every foreign part and got its answer. */
  lemma TornDid(spec: Spec, ch: Choice, w: World, name: string)
    requires Teardown(spec, ch, w).r == Done
    requires name in FOREIGN_PARTS
    ensures Answered(w.trail, Teardown(spec, ch, w).w.trail, name)
  {
    hide Run, UserStage.DeletePlan, TearPlan, DoList, Teardown, AllTaking;
    var p := UserStage.DeletePlan(ch.listed) + TearPlan(spec);
    TeardownPlan(spec, ch, w);
    TearForeigns(spec);
    ListKeeps(w);
    assert ForeignStep(name) in p && p[0..] == p;
    RunAnswered(p, 0, DoList(w).w, name);
  }
}
