/** What a pass installs, key by key: the objects of every component written out, in the order they appear. */
module Inventory {
  import opened World
  import opened Plans
  import opened Progress
  import opened Reconcile
  import opened Strings = Text
  import Policy
  import Undo
  import PortalStage
  import ProjectStage
  import BookbagStage
  import NexusStage
  import GitOpsStage
  import MeshStage
  import VaultStage

  /* ---------- The objects, component by component ---------- */

  function Portal(spec: Spec): seq<Key> {
    [Key(Secret, spec.namespace, "redis"), Key(PersistentVolumeClaim, spec.namespace, "redis"),
     Key(Deployment, spec.namespace, "redis"), Key(Service, spec.namespace, "redis"),
     Key(Deployment, spec.namespace, "portal"), Key(Service, spec.namespace, "portal"),
     Key(Route, spec.namespace, "portal")]
  }

  function ProjectOf(staging: string, id: nat): seq<Key> {
    var project, user := staging + Dec(id), "user" + Dec(id);
    [Key(Namespace, "", project), Key(RoleBinding, project, user + "-project"),
     Key(RoleBinding, project, user + "-default"), Key(RoleBinding, project, user + "-argocd")]
  }

  function BookbagOf(id: nat): seq<Key> {
    var name := "user" + Dec(id) + "-bookbag";
    [Key(Namespace, "", "workshop-guides"), Key(ConfigMap, "workshop-guides", name + "-env"),
     Key(ConfigMap, "workshop-guides", name + "-vars"), Key(ServiceAccount, "workshop-guides", name),
     Key(RoleBinding, "workshop-guides", name), Key(Deployment, "workshop-guides", name),
     Key(Service, "workshop-guides", name), Key(Route, "workshop-guides", name)]
  }

  const NEXUS: seq<Key> :=
    [Key(Namespace, "", "nexus"), Key(CustomResourceDefinition, "", "nexus.gpte.opentlc.com"),
     Key(ServiceAccount, "nexus", "nexus-operator"), Key(ClusterRole, "", "nexus-operator"),
     Key(ClusterRoleBinding, "", "nexus-operator"), Key(Deployment, "nexus", "nexus-operator"),
     Key(Kind.Nexus, "nexus", "nexus")]

  const GITOPS_FIRST: seq<Key> :=
    [Key(Subscription, "openshift-operators", "openshift-gitops-operator"), Key(Namespace, "", "argocd")]

  function GitOpsOf(staging: string, id: nat): seq<Key> {
    var project := staging + Dec(id);
    [Key(AppProject, "argocd", project), Key(Role, project, "argocd-manager"),
     Key(RoleBinding, project, "argocd-manager")]
  }

  const GITOPS_LAST: seq<Key> :=
    [Key(Secret, "argocd", "argocd-secret"), Key(ConfigMap, "argocd", "argocd-cm"), Key(ArgoCD, "argocd", "argocd"),
     Key(Secret, "argocd", "argocd-default-cluster-config")]

  function MeshOf(channel: string): seq<Key> {
    [Key(Namespace, "", "openshift-operators-redhat"),
     Key(Subscription, "openshift-operators-redhat", "elasticsearch-operator-" + channel),
     Key(Subscription, "openshift-operators", "jaeger-product"), Key(Subscription, "openshift-operators", "kiali-ossm"),
     Key(Subscription, "openshift-operators", "servicemeshoperator"), Key(Namespace, "", "istio-system"),
     Key(Role, "istio-system", "jaeger-user"), Key(RoleBinding, "istio-system", "jaeger-users"),
     Key(RoleBinding, "istio-system", "mesh-users"), Key(ControlPlane, "istio-system", "basic"),
     Key(MemberRoll, "istio-system", "default")]
  }

  /** The injector ensures the shared namespace and security context once more. */
  const VAULT: seq<Key> :=
    [Key(Namespace, "", "vault"), Key(ConfigMap, "vault", "vault-config"), Key(ServiceAccount, "vault", "vault"),
     Key(SecurityContextConstraints, "", "vault"), Key(ClusterRoleBinding, "", "vault-server-binding"),
     Key(Service, "vault", "vault-internal"), Key(Service, "vault", "vault"), Key(StatefulSet, "vault", "vault"),
     Key(Namespace, "", "vault"), Key(ServiceAccount, "vault", "vault-agent-injector"),
     Key(SecurityContextConstraints, "", "vault"), Key(ClusterRole, "", "vault-agent-injector"),
     Key(ClusterRoleBinding, "", "vault-agent-injector"), Key(Service, "vault", "vault-agent-injector"),
     Key(Deployment, "vault", "vault-agent-injector"), Key(MutatingWebhook, "", "vault-agent-injector-cfg")]

  function Joined(groups: seq<seq<Key>>, i: nat): seq<Key>
    requires i <= |groups|
    decreases |groups| - i
  {
    if i == |groups| then [] else groups[i] + Joined(groups, i + 1)
  }

  function EachProject(staging: string, n: nat): seq<seq<Key>> {
    seq(n, i requires 0 <= i < n => ProjectOf(staging, i + 1))
  }

  function EachBookbag(n: nat): seq<seq<Key>> {
    seq(n, i requires 0 <= i < n => BookbagOf(i + 1))
  }

  function EachGitOps(staging: string, n: nat): seq<seq<Key>> {
    seq(n, i requires 0 <= i < n => GitOpsOf(staging, i + 1))
  }

  function GitOps(staging: string, n: nat): seq<Key> {
    GITOPS_FIRST + (Joined(EachGitOps(staging, n), 0) + GITOPS_LAST)
  }

  /** The seven components, those that are switched off left empty. */
  function Components(spec: Spec): seq<seq<Key>> {
    [Portal(spec),
     if spec.projectEnabled && spec.staging != "" then Joined(EachProject(spec.staging, spec.Seats()), 0) else [],
     if spec.bookbagEnabled then Joined(EachBookbag(spec.Seats()), 0) else [],
     if spec.nexusEnabled then NEXUS else [],
     if spec.gitopsEnabled then GitOps(spec.staging, spec.Seats()) else [],
     if spec.meshEnabled || spec.serverlessEnabled then MeshOf(spec.elasticChannel) else [],
     if spec.vaultEnabled then VAULT else []]
  }

  function Catalogue(spec: Spec): seq<Key> {
    Joined(Components(spec), 0)
  }

  lemma {:induction false} InJoined(groups: seq<seq<Key>>, i: nat, k: Key)
    requires i <= |groups|
    ensures k in Joined(groups, i) <==> exists j :: i <= j < |groups| && k in groups[j]
    decreases |groups| - i
  {
    if i < |groups| {
      InJoined(groups, i + 1, k);
      var rest := Joined(groups, i + 1);
      assert k in groups[i] + rest <==> k in groups[i] || k in rest;
    }
  }

  /* ---------- The objects of a plan, in order ---------- */

  function Made(p: Plan): seq<Key> {
    if p == [] then [] else (if Makes(p[0]).Some? then [Makes(p[0]).value] else []) + Made(p[1..])
  }

  lemma {:induction false} MadeConcat(a: Plan, b: Plan)
    ensures Made(a + b) == Made(a) + Made(b)
  {
    if a == [] {
      assert a + b == b;
    } else {
      assert (a + b)[1..] == a[1..] + b;
      MadeConcat(a[1..], b);
    }
  }

  lemma {:induction false} MadeAll(p: Plan, keys: seq<Key>)
    requires |p| == |keys| && forall i :: 0 <= i < |p| ==> Makes(p[i]) == Some(keys[i])
    ensures Made(p) == keys
  {
    if p != [] {
      MadeAll(p[1..], keys[1..]);
    }
  }

  lemma {:induction false} MadeNone(p: Plan)
    requires forall i :: 0 <= i < |p| ==> Makes(p[i]).None?
    ensures Made(p) == []
  {
    if p != [] {
      MadeNone(p[1..]);
    }
  }

  lemma {:induction false} MadeFlat(blocks: seq<Plan>, groups: seq<seq<Key>>, i: nat)
    requires i <= |blocks| == |groups| && forall j :: 0 <= j < |blocks| ==> Made(blocks[j]) == groups[j]
    ensures Made(Flat(blocks, i)) == Joined(groups, i)
    decreases |blocks| - i
  {
    if i < |blocks| {
      MadeConcat(blocks[i], Flat(blocks, i + 1));
      MadeFlat(blocks, groups, i + 1);
    }
  }

  lemma {:induction false} InMade(p: Plan, k: Key)
    ensures k in Made(p) <==> exists s :: s in p && Makes(s) == Some(k)
  {
    if p != [] {
      assert p == [p[0]] + p[1..];
      InMade(p[1..], k);
      if s :| s in p && Makes(s) == Some(k) {
        assert s == p[0] || s in p[1..];
      }
    }
  }

  /* ---------- The stages make what is written above ---------- */

  lemma MadePortal(spec: Spec, order: seq<string>)
    ensures Made(PortalStage.Stage(spec, order)) == Portal(spec)
  {
    hide PortalStage.Environment;
    MadeAll(PortalStage.Stage(spec, order), Portal(spec));
  }

  lemma MadeLoop(blocks: seq<Plan>, groups: seq<seq<Key>>, scan: Step)
    requires |blocks| == |groups| && forall j :: 0 <= j < |blocks| ==> Made(blocks[j]) == groups[j]
    requires scan.ScanStep?
    ensures Made(Flat(blocks, 0) + [scan]) == Joined(groups, 0)
  {
    MadeFlat(blocks, groups, 0);
    MadeConcat(Flat(blocks, 0), [scan]);
    MadeNone([scan]);
  }

  lemma MadeProject(spec: Spec, id: nat)
    ensures Made(ProjectStage.Block(spec, id)) == ProjectOf(spec.staging, id)
  {
    MadeAll(ProjectStage.Block(spec, id), ProjectOf(spec.staging, id));
  }

  lemma MadeProjects(spec: Spec)
    ensures Made(ProjectStage.Stage(spec)) == Components(spec)[1]
  {
    hide ProjectStage.Block, ProjectOf, Made, MeshOf;
    var groups := if spec.projectEnabled && spec.staging != "" then EachProject(spec.staging, spec.Seats()) else [];
    forall j | 0 <= j < |ProjectStage.Blocks(spec)| ensures Made(ProjectStage.Blocks(spec)[j]) == groups[j] {
      MadeProject(spec, j + 1);
    }
    MadeLoop(ProjectStage.Blocks(spec), groups, ProjectStage.TheLoop(spec).Scan());
  }

  lemma MadeBookbag(spec: Spec, id: nat)
    ensures Made(BookbagStage.Block(spec, id)) == BookbagOf(id)
  {
    hide BookbagStage.Environment;
    MadeAll(BookbagStage.Block(spec, id), BookbagOf(id));
  }

  lemma MadeBookbags(spec: Spec)
    ensures Made(BookbagStage.Stage(spec)) == Components(spec)[2]
  {
    hide BookbagStage.Block, BookbagOf, Made, MeshOf;
    var groups := if spec.bookbagEnabled then EachBookbag(spec.Seats()) else [];
    forall j | 0 <= j < |BookbagStage.Blocks(spec)| ensures Made(BookbagStage.Blocks(spec)[j]) == groups[j] {
      MadeBookbag(spec, j + 1);
    }
    MadeLoop(BookbagStage.Blocks(spec), groups, BookbagStage.TheLoop(spec).Scan());
  }

  lemma MadeNexus()
    ensures Made(NexusStage.AddPlan()) == NEXUS
  {
    var await := [AwaitStep(NexusStage.DEPLOYMENT)];
    var all := Undo.Ensures(NexusStage.KEYS);
    MadeAll(all, NEXUS);
    MadeConcat(all, await);
    MadeNone(await);
  }

  lemma MadeOpening(spec: Spec)
    ensures Made(GitOpsStage.Opening(spec)) == GITOPS_FIRST
  {
    var p := GitOpsStage.Opening(spec);
    assert p == p[..1] + (p[1..3] + p[3..]);
    MadeConcat(p[..1], p[1..3] + p[3..]);
    MadeConcat(p[1..3], p[3..]);
    MadeAll(p[..1], GITOPS_FIRST[..1]);
    MadeNone(p[1..3]);
    MadeAll(p[3..], GITOPS_FIRST[1..]);
    assert GITOPS_FIRST == GITOPS_FIRST[..1] + GITOPS_FIRST[1..];
  }

  lemma MadeClosing(spec: Spec)
    ensures Made(GitOpsStage.Closing(spec)) == GITOPS_LAST
  {
    hide GitOpsStage.Accounts, Policy.PolicyText, GitOpsStage.ClusterConfig, GitOpsStage.NamespaceList, Made;
    var p := GitOpsStage.Closing(spec);
    assert p == p[..3] + (p[3..4] + p[4..]);
    MadeConcat(p[..3], p[3..4] + p[4..]);
    MadeConcat(p[3..4], p[4..]);
    MadeAll(p[..3], GITOPS_LAST[..3]);
    MadeNone(p[3..4]);
    MadeAll(p[4..], GITOPS_LAST[3..]);
    assert GITOPS_LAST == GITOPS_LAST[..3] + GITOPS_LAST[3..];
  }

  lemma MadeUser(staging: string, id: nat)
    ensures Made(GitOpsStage.Block(staging, id)) == GitOpsOf(staging, id)
  {
    MadeAll(GitOpsStage.Block(staging, id), GitOpsOf(staging, id));
  }

  lemma MadeGitOps(spec: Spec)
    ensures Made(GitOpsStage.AddPlan(spec)) == GitOps(spec.staging, spec.Seats())
  {
    hide GitOpsStage.Block, GitOpsStage.Opening, GitOpsStage.Closing, GitOpsOf, Made;
    var blocks := GitOpsStage.Blocks(spec);
    var groups := EachGitOps(spec.staging, spec.Seats());
    forall j | 0 <= j < |blocks| ensures Made(blocks[j]) == groups[j] {
      MadeUser(spec.staging, j + 1);
    }
    MadeFlat(blocks, groups, 0);
    MadeOpening(spec);
    MadeClosing(spec);
    MadeConcat(Flat(blocks, 0), GitOpsStage.Closing(spec));
    MadeConcat(GitOpsStage.Opening(spec), Flat(blocks, 0) + GitOpsStage.Closing(spec));
  }

  /** A plan that makes these objects and then waits. */
  lemma MadeFront(p: Plan, keys: seq<Key>)
    requires |keys| <= |p| && forall i :: 0 <= i < |keys| ==> Makes(p[i]) == Some(keys[i])
    requires forall i :: |keys| <= i < |p| ==> Makes(p[i]).None?
    ensures Made(p) == keys
  {
    hide Made, Makes;
    assert p == p[..|keys|] + p[|keys|..];
    MadeConcat(p[..|keys|], p[|keys|..]);
    MadeAll(p[..|keys|], keys);
    MadeNone(p[|keys|..]);
  }

  lemma MadeElastic(spec: Spec)
    ensures Made(MeshStage.ElasticPlan(spec)) == MeshOf(spec.elasticChannel)[..2]
  {
    hide Made;
    MadeFront(MeshStage.ElasticPlan(spec), MeshOf(spec.elasticChannel)[..2]);
  }

  lemma MadeOperators(spec: Spec)
    ensures var keys := MeshOf(spec.elasticChannel);
            && Made(MeshStage.JaegerPlan(spec)) == [keys[2]] && Made(MeshStage.KialiPlan(spec)) == [keys[3]]
            && Made(MeshStage.GatePlan(spec)) == [keys[4]]
  {
    hide Made;
    var keys := MeshOf(spec.elasticChannel);
    MadeFront(MeshStage.JaegerPlan(spec), [keys[2]]);
    MadeFront(MeshStage.KialiPlan(spec), [keys[3]]);
    MadeFront(MeshStage.GatePlan(spec), [keys[4]]);
  }

  lemma MadeControl(spec: Spec)
    ensures Made(MeshStage.ControlPlan(spec)) == MeshOf(spec.elasticChannel)[5..]
  {
    hide MeshStage.Subjects, GitOpsStage.ProjectNames, Made;
    MadeAll(MeshStage.ControlPlan(spec), MeshOf(spec.elasticChannel)[5..]);
  }

  lemma MadeMesh(spec: Spec)
    ensures Made(MeshStage.AddPlan(spec)) == MeshOf(spec.elasticChannel)
  {
    hide MeshStage.ElasticPlan, MeshStage.JaegerPlan, MeshStage.KialiPlan, MeshStage.GatePlan, MeshStage.ControlPlan,
         Made;
    var a, b, c := MeshStage.ElasticPlan(spec), MeshStage.JaegerPlan(spec), MeshStage.KialiPlan(spec);
    var d, e := MeshStage.GatePlan(spec), MeshStage.ControlPlan(spec);
    MadeElastic(spec);
    MadeOperators(spec);
    MadeControl(spec);
    var keys := MeshOf(spec.elasticChannel);
    assert keys == keys[..2] + ([keys[2]] + ([keys[3]] + ([keys[4]] + keys[5..])));
    MadeConcat(d, e);
    MadeConcat(c, d + e);
    MadeConcat(b, c + (d + e));
    MadeConcat(a, b + (c + (d + e)));
  }

  lemma MadeVault()
    ensures Made(VaultStage.AddPlan()) == VAULT
  {
    hide Made;
    MadeAll(VaultStage.ServerPlan(), VAULT[..8]);
    MadeAll(VaultStage.AgentPlan(), VAULT[8..]);
    MadeConcat(VaultStage.ServerPlan(), VaultStage.AgentPlan());
    assert VAULT == VAULT[..8] + VAULT[8..];
  }

  lemma MadeForeign(p: Plan)
    requires forall i :: 0 <= i < |p| ==> p[i].ForeignStep?
    ensures Made(p) == []
  {
    MadeNone(p);
  }

  /** The groups of the eleven stages, those of others empty. */
  function Groups(spec: Spec): seq<seq<Key>> {
    var c := Components(spec);
    [c[0], c[1], c[2], c[3], [], c[4], [], c[5], [], c[6], []]
  }

  lemma MadeFirstStages(spec: Spec, order: seq<string>, j: nat)
    requires j < 4
    ensures Made(Stages(spec, order)[j]) == Groups(spec)[j]
  {
    hide Made, PortalStage.Stage, ProjectStage.Stage, BookbagStage.Stage, NexusStage.AddPlan, GitOpsStage.AddPlan,
         MeshStage.AddPlan, VaultStage.AddPlan, Portal, EachProject, EachBookbag, GitOps, MeshOf, Joined;
    assert Made([]) == [] by { MadeNone([]); }
    if j == 0 { MadePortal(spec, order); }
    else if j == 1 { MadeProjects(spec); }
    else if j == 2 { MadeBookbags(spec); }
    else { MadeNexus(); }
  }

  lemma MadeStage(spec: Spec, order: seq<string>, j: nat)
    requires j < |Stages(spec, order)|
    ensures Made(Stages(spec, order)[j]) == Groups(spec)[j]
  {
    hide Made, PortalStage.Stage, ProjectStage.Stage, BookbagStage.Stage, NexusStage.Stage, GitOpsStage.AddPlan,
         MeshStage.AddPlan, VaultStage.AddPlan, Portal, EachProject, EachBookbag, GitOps, MeshOf, Joined;
    if j < 4 {
      MadeFirstStages(spec, order, j);
    } else {
      assert Made([]) == [] by { MadeNone([]); }
      if j == 5 { MadeGitOps(spec); }
      else if j == 7 { MadeMesh(spec); }
      else if j == 9 { MadeVault(); }
      else { MadeForeign(Stages(spec, order)[j]); }
    }
  }

  /** Without the empty groups of the foreign stages. */
  lemma SkipEmpty(g: seq<seq<Key>>, c: seq<seq<Key>>)
    requires |c| == 7 && g == [c[0], c[1], c[2], c[3], [], c[4], [], c[5], [], c[6], []]
    ensures Joined(g, 0) == Joined(c, 0)
  {
    assert Joined(g, 11) == Joined(c, 7);
    hide Joined;
    JoinedNext(g, 10);
    JoinedBoth(g, 9, c, 6);
    JoinedNext(g, 8);
    JoinedBoth(g, 7, c, 5);
    JoinedNext(g, 6);
    JoinedBoth(g, 5, c, 4);
    JoinedNext(g, 4);
    JoinedBoth(g, 3, c, 3);
    JoinedBoth(g, 2, c, 2);
    JoinedBoth(g, 1, c, 1);
    JoinedBoth(g, 0, c, 0);
  }

  lemma JoinedNext(g: seq<seq<Key>>, i: nat)
    requires i < |g| && g[i] == []
    ensures Joined(g, i) == Joined(g, i + 1)
  {
  }

  lemma JoinedBoth(g: seq<seq<Key>>, i: nat, c: seq<seq<Key>>, j: nat)
    requires i < |g| && j < |c| && g[i] == c[j] && Joined(g, i + 1) == Joined(c, j + 1)
    ensures Joined(g, i) == Joined(c, j)
  {
  }

  /** The plan of a pass makes exactly these objects, in this order. */
  lemma MainMade(spec: Spec, order: seq<string>)
    ensures Made(MainPlan(spec, order)) == Catalogue(spec)
  {
    hide Made, Stages, Groups, Catalogue, Joined, Flat;
    var ss, groups := Stages(spec, order), Groups(spec);
    assert |ss| == |groups| by { CountStages(spec, order); }
    forall j | 0 <= j < |ss| ensures Made(ss[j]) == groups[j] { MadeStage(spec, order, j); }
    MadeFlat(ss, groups, 0);
    SameGroups(spec);
  }

  lemma SameGroups(spec: Spec)
    ensures Joined(Groups(spec), 0) == Catalogue(spec)
  {
    hide Portal, EachProject, EachBookbag, GitOps, MeshOf, Joined;
    SkipEmpty(Groups(spec), Components(spec));
  }

  lemma CountStages(spec: Spec, order: seq<string>)
    ensures |Stages(spec, order)| == |Groups(spec)|
  {
  }
}
