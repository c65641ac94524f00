/** What the main plan consists of, whatever the spec: which objects it makes, and which steps share one. */
module MainFacts {
  import opened World
  import opened Steps
  import opened Plans
  import opened Progress
  import opened Frame
  import opened Htpasswd
  import opened Reconcile
  import opened Strings = Text
  import Policy
  import UserStage
  import Accounts
  import PortalStage
  import ProjectStage
  import BookbagStage
  import NexusStage
  import GitOpsStage
  import MeshStage
  import VaultStage

  /* ---------- The steps of each stage ---------- */

  ghost predicate FromProject(spec: Spec, s: Step) {
    s.ScanStep? || (spec.projectEnabled && spec.staging != ""
                    && exists id: nat :: 1 <= id <= spec.Seats() && s in ProjectStage.Block(spec, id))
  }

  lemma InProject(spec: Spec, s: Step)
    requires s in ProjectStage.Stage(spec)
    ensures FromProject(spec, s)
  {
    var blocks := ProjectStage.Blocks(spec);
    InFlat(blocks, 0, s);
    if !s.ScanStep? {
      var j :| 0 <= j < |blocks| && s in blocks[j];
      assert s in ProjectStage.Block(spec, j + 1);
    }
  }

  ghost predicate FromBookbag(spec: Spec, s: Step) {
    s.ScanStep? || (spec.bookbagEnabled
                    && exists id: nat :: 1 <= id <= spec.Seats() && s in BookbagStage.Block(spec, id))
  }

  lemma InBookbag(spec: Spec, s: Step)
    requires s in BookbagStage.Stage(spec)
    ensures FromBookbag(spec, s)
  {
    var blocks := BookbagStage.Blocks(spec);
    InFlat(blocks, 0, s);
    if !s.ScanStep? {
      var j :| 0 <= j < |blocks| && s in blocks[j];
      assert s in BookbagStage.Block(spec, j + 1);
    }
  }

  ghost predicate FromGitOps(spec: Spec, s: Step) {
    && spec.gitopsEnabled
    && (s in GitOpsStage.Opening(spec) || s in GitOpsStage.Closing(spec)
        || exists id: nat :: 1 <= id <= spec.Seats() && s in GitOpsStage.Block(spec.staging, id))
  }

  lemma InGitOps(spec: Spec, s: Step)
    requires s in GitOpsStage.Stage(spec)
    ensures FromGitOps(spec, s)
  {
    var blocks := GitOpsStage.Blocks(spec);
    InFlat(blocks, 0, s);
    if s !in GitOpsStage.Opening(spec) && s !in GitOpsStage.Closing(spec) {
      assert s in Flat(blocks, 0);
      var j :| 0 <= j < |blocks| && s in blocks[j];
      assert s in GitOpsStage.Block(spec.staging, j + 1);
    }
  }

  ghost predicate FromMesh(spec: Spec, s: Step) {
    s in MeshStage.ElasticPlan(spec) || s in MeshStage.JaegerPlan(spec) || s in MeshStage.KialiPlan(spec)
    || s in MeshStage.GatePlan(spec) || s in MeshStage.ControlPlan(spec)
  }

  ghost predicate FromVault(s: Step) {
    s in VaultStage.ServerPlan() || s in VaultStage.AgentPlan()
  }

  ghost predicate FromNexus(s: Step) {
    s.AwaitStep? || exists k :: k in NexusStage.KEYS && s == EnsureStep(k, Bare)
  }

  lemma InNexus(s: Step)
    requires s in NexusStage.AddPlan()
    ensures FromNexus(s)
  {
    if !s.AwaitStep? {
      var i :| 0 <= i < |NexusStage.KEYS| && s == EnsureStep(NexusStage.KEYS[i], Bare);
      assert NexusStage.KEYS[i] in NexusStage.KEYS;
    }
  }

  ghost predicate FromPortal(spec: Spec, order: seq<string>, s: Step) {
    s in PortalStage.RedisPlan(spec) || s in PortalStage.DistributionPlan(spec, order)
  }

  lemma InMain(spec: Spec, order: seq<string>, s: Step)
    requires s in MainPlan(spec, order)
    ensures FromPortal(spec, order, s) || FromProject(spec, s) || FromBookbag(spec, s) || FromNexus(s)
        || FromGitOps(spec, s)
            || FromMesh(spec, s) || FromVault(s) || s.ForeignStep?
  {
    hide PortalStage.RedisPlan, PortalStage.DistributionPlan, ProjectStage.Stage, BookbagStage.Stage,
         NexusStage.AddPlan, GitOpsStage.Stage, MeshStage.ElasticPlan, MeshStage.JaegerPlan, MeshStage.KialiPlan,
         MeshStage.GatePlan, MeshStage.ControlPlan, VaultStage.ServerPlan, VaultStage.AgentPlan, FromProject,
         FromBookbag, FromNexus, FromGitOps;
    var ss := Stages(spec, order);
    InFlat(ss, 0, s);
    var j :| 0 <= j < |ss| && s in ss[j];
    if j == 1 { InProject(spec, s); }
    else if j == 2 { InBookbag(spec, s); }
    else if j == 3 { InNexus(s); }
    else if j == 5 { InGitOps(spec, s); }
  }

  /* ---------- Outside the user stage's objects ---------- */

  /** The objects the user stage sees to. */
  predicate UserSpace(k: Key) {
    k.kind == User || k.kind == Identity || k.kind == UserIdentityMapping
    || (k.kind == RoleBinding && k.ns == UserStage.INFRA) || k == SECRET
  }

  predicate Fine(s: Step) {
    Builder(s) && (Makes(s).Some? ==> !UserSpace(Makes(s).value))
  }

  lemma FineProject(spec: Spec, s: Step)
    requires FromProject(spec, s)
    ensures Fine(s)
  {
    if !s.ScanStep? {
      var id: nat :| 1 <= id <= spec.Seats() && s in ProjectStage.Block(spec, id);
      NotNumbered(UserStage.INFRA, spec.staging, id);
    }
  }

  lemma FineGitOps(spec: Spec, s: Step)
    requires FromGitOps(spec, s)
    ensures Fine(s)
  {
    if s !in GitOpsStage.Opening(spec) && s !in GitOpsStage.Closing(spec) {
      var id: nat :| 1 <= id <= spec.Seats() && s in GitOpsStage.Block(spec.staging, id);
      NotNumbered(UserStage.INFRA, spec.staging, id);
    }
  }

  lemma FinePortal(spec: Spec, order: seq<string>, s: Step)
    requires FromPortal(spec, order, s)
    ensures Fine(s)
  {
    hide PortalStage.Environment;
  }

  lemma FineBookbag(spec: Spec, s: Step)
    requires FromBookbag(spec, s)
    ensures Fine(s)
  {
    hide BookbagStage.Environment, BookbagStage.Name;
  }

  lemma FineNexus(s: Step)
    requires FromNexus(s)
    ensures Fine(s)
  {
  }

  lemma FineMesh(spec: Spec, s: Step)
    requires FromMesh(spec, s)
    ensures Fine(s)
  {
    hide MeshStage.Subjects, GitOpsStage.ProjectNames;
  }

  lemma FineVault(s: Step)
    requires FromVault(s)
    ensures Fine(s)
  {
  }

  /** Every step of the main plan builds, and none sees to an object of the user stage. */
  lemma MainFine(spec: Spec, order: seq<string>)
    ensures forall s :: s in MainPlan(spec, order) ==> Fine(s)
    ensures Building(MainPlan(spec, order))
  {
    hide MainPlan, Fine, FromPortal, FromProject, FromBookbag, FromNexus, FromGitOps, FromMesh, FromVault;
    forall s | s in MainPlan(spec, order) ensures Fine(s) {
      InMain(spec, order, s);
      if FromProject(spec, s) { FineProject(spec, s); }
      else if FromGitOps(spec, s) { FineGitOps(spec, s); }
      else if FromPortal(spec, order, s) { FinePortal(spec, order, s); }
      else if FromBookbag(spec, s) { FineBookbag(spec, s); }
      else if FromNexus(s) { FineNexus(s); }
      else if FromMesh(spec, s) { FineMesh(spec, s); }
      else if FromVault(s) { FineVault(s); }
      else { FineForeign(s); }
    }
    FineBuilds(MainPlan(spec, order));
  }

  lemma FineForeign(s: Step)
    requires s.ForeignStep?
    ensures Fine(s)
  {
  }

  lemma FineBuilds(p: Plan)
    requires forall s :: s in p ==> Fine(s)
    ensures Building(p)
  {
    forall i | 0 <= i < |p| ensures Builder(p[i]) { assert p[i] in p; }
  }

  /** The user stage touches nothing else. */
  lemma UserStageAvoids(spec: Spec, ch: UserStage.Choice, w: World, k: Key)
    requires !UserSpace(k)
    ensures SameAt(w.store, UserStage.Stage(spec, ch, w).w.store, k)
  {
    var p := UserStage.UserPlan(spec, ch);
    Accounts.ListKeeps(w);
    forall i | 0 <= i < |p| ensures Avoids(p[i], k) {
      UserPlanStep(spec, ch, p[i], k);
    }
    RunAvoids(p, 0, DoList(w).w, k);
  }

  lemma UserBlockStep(name: string, s: Step, k: Key)
    requires (s in UserStage.RemoveBlock(name) || s in UserStage.AddBlock(name)) && !UserSpace(k)
    ensures Avoids(s, k)
  {
  }

  lemma UserPlanStep(spec: Spec, ch: UserStage.Choice, s: Step, k: Key)
    requires s in UserStage.UserPlan(spec, ch) && !UserSpace(k)
    ensures Avoids(s, k)
  {
    hide Avoids, UserStage.RemoveBlock, UserStage.AddBlock, UserSpace;
    var rem, add := UserStage.Removals(ch.items, Wanted(spec.prefix, spec.users)),
        UserStage.Additions(ch.order, ch.items);
    InFlat(rem, 0, s);
    InFlat(add, 0, s);
    if s in Flat(rem, 0) {
      var j :| 0 <= j < |rem| && s in rem[j];
      UserBlockStep(ch.items[j], s, k);
    } else if s in Flat(add, 0) {
      var j :| 0 <= j < |add| && s in add[j];
      UserBlockStep(ch.order[j], s, k);
    } else {
      assert s == SecretFile(File(ch.lines, ch.hash), spec.users, spec.prefix);
      SecretStepAvoids(File(ch.lines, ch.hash), spec.users, spec.prefix, k);
    }
  }

  lemma SecretStepAvoids(text: string, total: int, prefix: string, k: Key)
    requires !UserSpace(k)
    ensures Avoids(SecretFile(text, total, prefix), k)
  {
  }

  /* ---------- Objects behind the gates ---------- */

  /** The objects the GitOps stage makes after its readiness wait. */
  predicate LateGitOps(k: Key) {
    || k == Key(Namespace, "", GitOpsStage.ARGOCD)
    || k == Key(Secret, GitOpsStage.ARGOCD, "argocd-secret")
    || k == GitOpsStage.ACCOUNTS || k == GitOpsStage.INSTANCE || k == GitOpsStage.CLUSTER_CONFIG
    || k.kind == AppProject
    || ((k.kind == Role || k.kind == RoleBinding) && k.name == GitOpsStage.MANAGER)
  }

  /** The objects the service mesh stage makes after its readiness wait. */
  predicate LateMesh(k: Key) {
    || k == Key(Namespace, "", MeshStage.ISTIO)
    || k == Key(Role, MeshStage.ISTIO, "jaeger-user")
    || k == MeshStage.JAEGER_USERS || k == MeshStage.MESH_USERS
    || k.kind == ControlPlane || k.kind == MemberRoll
  }

  predicate Late(s: Step) {
    Makes(s).Some? && (LateGitOps(Makes(s).value) || LateMesh(Makes(s).value))
  }

  lemma ProjectKeyShape(spec: Spec, id: nat, s: Step)
    requires s in ProjectStage.Block(spec, id)
    ensures s.EnsureStep?
    ensures s.key == ProjectStage.Space(spec, id)
            || (s.key.kind == RoleBinding && s.key.ns == ProjectStage.Project(spec, id) && s.key.name != ""
                && s.key.name[0] == 'u')
  {
    assert ProjectStage.Username(id)[0] == 'u';
    hide ProjectStage.Project;
  }

  lemma SpaceNotLate(spec: Spec, id: nat)
    ensures !LateGitOps(ProjectStage.Space(spec, id)) && !LateMesh(ProjectStage.Space(spec, id))
  {
    NotNumbered(GitOpsStage.ARGOCD, spec.staging, id);
    NotNumbered(MeshStage.ISTIO, spec.staging, id);
  }

  lemma BindingNotLate(k: Key, staging: string, id: nat)
    requires k.kind == RoleBinding && k.ns == staging + Dec(id) && k.name != "" && k.name[0] == 'u'
    ensures !LateGitOps(k) && !LateMesh(k)
  {
    NotNumbered(MeshStage.ISTIO, staging, id);
  }

  lemma NotLateProject(spec: Spec, s: Step)
    requires FromProject(spec, s)
    ensures !Late(s)
  {
    hide ProjectStage.Block, LateGitOps, LateMesh;
    if !s.ScanStep? {
      var id: nat :| 1 <= id <= spec.Seats() && s in ProjectStage.Block(spec, id);
      ProjectKeyShape(spec, id, s);
      if s.key == ProjectStage.Space(spec, id) {
        SpaceNotLate(spec, id);
      } else {
        BindingNotLate(s.key, spec.staging, id);
      }
    }
  }

  lemma BookbagKeys(spec: Spec, id: nat, s: Step)
    requires s in BookbagStage.Block(spec, id)
    ensures s.EnsureStep? || s.SyncStep?
    ensures s.key == Key(Namespace, "", BookbagStage.GUIDES) || (s.key.ns == BookbagStage.GUIDES && s.key.kind != Role)
    ensures s.key.kind == RoleBinding ==> s.key.name == BookbagStage.Name(id)
    ensures s.key.kind != AppProject && s.key.kind != ControlPlane && s.key.kind != MemberRoll
  {
    hide BookbagStage.Name, BookbagStage.Environment;
  }

  lemma BookbagKeyNotLate(k: Key)
    requires k == Key(Namespace, "", BookbagStage.GUIDES) || (k.ns == BookbagStage.GUIDES && k.kind != Role)
    requires k.kind == RoleBinding ==> k.name != "" && k.name[0] == 'u'
    requires k.kind != AppProject && k.kind != ControlPlane && k.kind != MemberRoll
    ensures !LateGitOps(k) && !LateMesh(k)
  {
  }

  lemma NotLateBookbag(spec: Spec, s: Step)
    requires FromBookbag(spec, s)
    ensures !Late(s)
  {
    if !s.ScanStep? {
      var id: nat :| 1 <= id <= spec.Seats() && s in BookbagStage.Block(spec, id);
      assert BookbagStage.Name(id)[0] == 'u';
      hide BookbagStage.Name, BookbagStage.Block, LateGitOps, LateMesh;
      BookbagKeys(spec, id, s);
      BookbagKeyNotLate(s.key);
    }
  }

  lemma NotLatePortal(spec: Spec, order: seq<string>, s: Step)
    requires FromPortal(spec, order, s)
    ensures !Late(s)
  {
    hide PortalStage.Environment;
    assert s.EnsureStep? || s.SyncStep?;
    assert s.key.name == "redis" || s.key.name == "portal";
  }

  lemma NotLateNexus(s: Step)
    requires FromNexus(s)
    ensures !Late(s)
  {
  }

  lemma VaultKeys(s: Step)
    requires FromVault(s)
    ensures s.EnsureStep? || s.CloneStep?
    ensures s.key.ns == "" || s.key.ns == VaultStage.VAULT
    ensures s.key.kind == Namespace ==> s.key.name == VaultStage.VAULT
    ensures s.key.kind != AppProject && s.key.kind != ControlPlane && s.key.kind != MemberRoll
    ensures s.key.kind != Role && s.key.kind != RoleBinding
  {
  }

  lemma NotLateVault(s: Step)
    requires FromVault(s)
    ensures !Late(s)
  {
    hide FromVault;
    VaultKeys(s);
  }

  lemma NotLateMesh(spec: Spec, s: Step)
    requires FromMesh(spec, s) && s !in MeshStage.ControlPlan(spec)
    ensures !Late(s)
  {
    hide MeshStage.ControlPlan;
  }

  lemma LateControl(spec: Spec, s: Step)
    requires s in MeshStage.ControlPlan(spec)
    ensures Makes(s).Some? && LateMesh(Makes(s).value) && !LateGitOps(Makes(s).value)
  {
    hide MeshStage.Subjects, GitOpsStage.ProjectNames;
  }

  lemma LateBlock(staging: string, id: nat, s: Step)
    requires s in GitOpsStage.Block(staging, id)
    ensures Makes(s).Some? && LateGitOps(Makes(s).value) && !LateMesh(Makes(s).value)
  {
  }

  lemma NotMeshGitOps(spec: Spec, s: Step)
    requires FromGitOps(spec, s)
    ensures Makes(s).Some? ==> !LateMesh(Makes(s).value)
  {
    if s !in GitOpsStage.Opening(spec) && s !in GitOpsStage.Closing(spec) {
      var id: nat :| 1 <= id <= spec.Seats() && s in GitOpsStage.Block(spec.staging, id);
      LateBlock(spec.staging, id, s);
    }
    hide GitOpsStage.Block, GitOpsStage.NamespaceList, GitOpsStage.Accounts, GitOpsStage.ClusterConfig;
  }

  /** Only the GitOps stage makes its late objects, and only the mesh stage, behind its gate, makes its own. */
  lemma LateFrom(spec: Spec, order: seq<string>, s: Step)
    requires s in MainPlan(spec, order) && Makes(s).Some?
    ensures LateGitOps(Makes(s).value) ==> FromGitOps(spec, s)
    ensures LateMesh(Makes(s).value) ==> s in MeshStage.ControlPlan(spec)
  {
    hide MainPlan, LateGitOps, LateMesh, FromPortal, FromProject, FromBookbag, FromNexus, FromGitOps, FromMesh,
         FromVault, MeshStage.ControlPlan;
    InMain(spec, order, s);
    if FromProject(spec, s) { NotLateProject(spec, s); }
    else if FromGitOps(spec, s) { NotMeshGitOps(spec, s); }
    else if FromPortal(spec, order, s) { NotLatePortal(spec, order, s); }
    else if FromBookbag(spec, s) { NotLateBookbag(spec, s); }
    else if FromNexus(s) { NotLateNexus(s); }
    else if FromVault(s) { NotLateVault(s); }
    else if FromMesh(spec, s) {
      if s in MeshStage.ControlPlan(spec) { LateControl(spec, s); } else { NotLateMesh(spec, s); }
    }
  }

  /* ---------- Which steps share an object ---------- */

  function AccountsStep(spec: Spec): Step {
    SyncStep(GitOpsStage.ACCOUNTS, Table(GitOpsStage.Accounts(spec.Seats())), Within)
  }

  function InstanceStep(spec: Spec): Step {
    SyncStep(GitOpsStage.INSTANCE, Text(Policy.PolicyText(spec.staging, spec.Seats())), Same)
  }

  function ConfigStep(spec: Spec): Step {
    SyncStep(GitOpsStage.CLUSTER_CONFIG,
             Table(GitOpsStage.ClusterConfig(GitOpsStage.NamespaceList(spec.staging, spec.Seats()))), Merged)
  }

  function AppStep(project: string): Step {
    SyncStep(Key(AppProject, GitOpsStage.ARGOCD, project), Names([project]), Same)
  }

  function ManagerStep(project: string): Step {
    SyncStep(Key(RoleBinding, project, GitOpsStage.MANAGER), Names([ProjectStage.ARGOCD_CONTROLLER]), Same)
  }

  function JaegerStep(spec: Spec): Step {
    SyncStep(MeshStage.JAEGER_USERS, Names(MeshStage.Subjects(spec, spec.Seats())), Same)
  }

  function MeshUsersStep(spec: Spec): Step {
    EnsureStep(MeshStage.MESH_USERS, Names(MeshStage.Subjects(spec, spec.Seats())))
  }

  function RollStep(spec: Spec): Step {
    SyncStep(MeshStage.MEMBER_ROLL, Names(GitOpsStage.ProjectNames(spec.staging, spec.Seats())), Same)
  }

  /** What a GitOps step does under the key of an updated object is determined by the key. */
  lemma GitOpsByKey(spec: Spec, s: Step)
    requires FromGitOps(spec, s) && Makes(s).Some?
    ensures s.key == GitOpsStage.ACCOUNTS ==> s == AccountsStep(spec)
    ensures s.key == GitOpsStage.INSTANCE ==> s == InstanceStep(spec)
    ensures s.key == GitOpsStage.CLUSTER_CONFIG ==> s == ConfigStep(spec)
    ensures s.key.kind == AppProject ==> s == AppStep(s.key.name)
    ensures s.key.kind == RoleBinding ==> s == ManagerStep(s.key.ns)
    ensures s.SyncStep? ==> s.key.kind == AppProject || s.key.kind == RoleBinding || s.key == GitOpsStage.ACCOUNTS
                            || s.key == GitOpsStage.INSTANCE || s.key == GitOpsStage.CLUSTER_CONFIG
  {
    hide GitOpsStage.NamespaceList, GitOpsStage.Accounts, GitOpsStage.ClusterConfig, Policy.PolicyText;
    if s !in GitOpsStage.Opening(spec) && s !in GitOpsStage.Closing(spec) {
      var id: nat :| 1 <= id <= spec.Seats() && s in GitOpsStage.Block(spec.staging, id);
    }
  }

  lemma MeshByKey(spec: Spec, s: Step)
    requires s in MeshStage.ControlPlan(spec)
    ensures s.EnsureStep? || s.SyncStep?
    ensures s.key == MeshStage.JAEGER_USERS ==> s == JaegerStep(spec)
    ensures s.key == MeshStage.MESH_USERS ==> s == MeshUsersStep(spec)
    ensures s.key == MeshStage.MEMBER_ROLL ==> s == RollStep(spec)
    ensures s.SyncStep? ==> s == JaegerStep(spec) || s == RollStep(spec)
  {
    hide MeshStage.Subjects, GitOpsStage.ProjectNames;
  }

  lemma BookbagByKey(spec: Spec, s: Step, t: Step)
    requires FromBookbag(spec, s) && FromBookbag(spec, t) && s.SyncStep? && t.SyncStep? && s.key == t.key
    ensures s == t
  {
    var i: nat :| 1 <= i <= spec.Seats() && s in BookbagStage.Block(spec, i);
    var j: nat :| 1 <= j <= spec.Seats() && t in BookbagStage.Block(spec, j);
    BookbagSync(spec, i, s);
    BookbagSync(spec, j, t);
    NumberedInjective("user", i, j);
    assert BookbagStage.Name(i)[..|BookbagStage.Name(i)| - 8] == "user" + Dec(i);
    assert BookbagStage.Name(j)[..|BookbagStage.Name(j)| - 8] == "user" + Dec(j);
  }

  lemma BookbagSync(spec: Spec, id: nat, s: Step)
    requires s in BookbagStage.Block(spec, id) && s.SyncStep?
    ensures s == SyncStep(Key(Deployment, BookbagStage.GUIDES, BookbagStage.Name(id)),
        BookbagStage.Environment(spec, id), Same)
    ensures s.key.kind == Deployment && s.key.name[|s.key.name| - 1] == 'g'
  {
    hide BookbagStage.Environment;
  }

  lemma PortalSync(spec: Spec, order: seq<string>, s: Step)
    requires FromPortal(spec, order, s) && s.SyncStep?
    ensures s == PortalStage.RedisPlan(spec)[2] || s == PortalStage.DistributionPlan(spec, order)[0]
    ensures s.key.kind == Deployment && s.key.name in ["redis", "portal"] && s.key.name[|s.key.name| - 1] != 'g'
  {
    hide PortalStage.Environment;
  }

  /** Which stage an updating step belongs to can be read off the key. */
  lemma SyncFrom(spec: Spec, order: seq<string>, s: Step)
    requires s in MainPlan(spec, order) && s.SyncStep?
    ensures if s.key.kind == Deployment && s.key.name != "" then
              (if s.key.name[|s.key.name| - 1] == 'g' then FromBookbag(spec, s) else FromPortal(spec, order, s))
            else (LateGitOps(s.key) && FromGitOps(spec, s)) || (LateMesh(s.key) && s in MeshStage.ControlPlan(spec))
  {
    hide MainPlan, FromPortal, FromProject, FromBookbag, FromNexus, FromGitOps, FromMesh, FromVault,
         MeshStage.ControlPlan;
    InMain(spec, order, s);
    if FromPortal(spec, order, s) { PortalSync(spec, order, s); }
    else if FromBookbag(spec, s) { SyncBookbag(spec, s); }
    else if FromGitOps(spec, s) { GitOpsByKey(spec, s); }
    else if s in MeshStage.ControlPlan(spec) { MeshByKey(spec, s); }
    else { NoSync(spec, s); }
  }

  lemma SyncBookbag(spec: Spec, s: Step)
    requires FromBookbag(spec, s) && s.SyncStep?
    ensures s.key.kind == Deployment && s.key.name != "" && s.key.name[|s.key.name| - 1] == 'g'
  {
    var i: nat :| 1 <= i <= spec.Seats() && s in BookbagStage.Block(spec, i);
    BookbagSync(spec, i, s);
  }

  lemma NoSync(spec: Spec, s: Step)
    requires FromProject(spec, s) || FromNexus(s) || FromVault(s)
        || (FromMesh(spec, s) && s !in MeshStage.ControlPlan(spec))
             || s.ForeignStep?
    ensures !s.SyncStep?
  {
    hide MeshStage.ControlPlan, FromProject, FromNexus, FromVault, FromMesh;
    if FromVault(s) { VaultKeys(s); }
    else if FromProject(spec, s) { NoSyncProject(spec, s); }
    else if FromNexus(s) { NoSyncNexus(s); }
    else if !s.ForeignStep? { NoSyncMesh(spec, s); }
  }

  lemma NoSyncProject(spec: Spec, s: Step)
    requires FromProject(spec, s)
    ensures !s.SyncStep?
  {
  }

  lemma NoSyncNexus(s: Step)
    requires FromNexus(s)
    ensures !s.SyncStep?
  {
  }

  lemma NoSyncMesh(spec: Spec, s: Step)
    requires FromMesh(spec, s) && s !in MeshStage.ControlPlan(spec)
    ensures !s.SyncStep?
  {
    hide MeshStage.ControlPlan, MeshStage.Elastic;
  }

  /** No two different steps of the main plan update the same object. */
  lemma MainDistinct(spec: Spec, order: seq<string>)
    ensures DistinctSyncs(MainPlan(spec, order))
  {
    hide MainPlan, FromPortal, FromBookbag, FromGitOps, MeshStage.ControlPlan;
    var p := MainPlan(spec, order);
    forall s, t | s in p && t in p && s.SyncStep? && t.SyncStep? && s.key == t.key ensures s == t {
      SyncFrom(spec, order, s);
      SyncFrom(spec, order, t);
      SamePair(spec, order, s, t);
    }
  }

  lemma SamePair(spec: Spec, order: seq<string>, s: Step, t: Step)
    requires s.SyncStep? && t.SyncStep? && s.key == t.key
    requires (FromPortal(spec, order, s) && FromPortal(spec, order, t))
        || (FromBookbag(spec, s) && FromBookbag(spec, t))
             || (LateGitOps(s.key) && FromGitOps(spec, s) && FromGitOps(spec, t))
             || (LateMesh(s.key) && s in MeshStage.ControlPlan(spec) && t in MeshStage.ControlPlan(spec))
             || (LateGitOps(s.key) && LateMesh(s.key))
    ensures s == t
  {
    hide FromPortal, FromBookbag, FromGitOps, MeshStage.ControlPlan, BookbagStage.Environment,
         PortalStage.Environment, MeshStage.Subjects, GitOpsStage.ProjectNames;
    if FromPortal(spec, order, s) && FromPortal(spec, order, t) {
      PortalSync(spec, order, s);
      PortalSync(spec, order, t);
    } else if FromBookbag(spec, s) && FromBookbag(spec, t) {
      BookbagByKey(spec, s, t);
    } else if FromGitOps(spec, s) && FromGitOps(spec, t) {
      GitOpsByKey(spec, s);
      GitOpsByKey(spec, t);
    } else if s in MeshStage.ControlPlan(spec) && t in MeshStage.ControlPlan(spec) {
      MeshByKey(spec, s);
      MeshByKey(spec, t);
    }
  }

  /** The objects with an update rule of their own are each seen to by a single step. */
  lemma OnlyGitOps(spec: Spec, order: seq<string>)
    ensures var p := MainPlan(spec, order);
            OnlyBy(p, AccountsStep(spec)) && OnlyBy(p, InstanceStep(spec)) && OnlyBy(p, ConfigStep(spec))
  {
    hide MainPlan, FromGitOps, MeshStage.ControlPlan, GitOpsStage.Accounts, Policy.PolicyText,
         GitOpsStage.ClusterConfig;
    forall t | t in MainPlan(spec, order) && Makes(t).Some? && LateGitOps(Makes(t).value)
      ensures t.key == GitOpsStage.ACCOUNTS ==> t == AccountsStep(spec)
      ensures t.key == GitOpsStage.INSTANCE ==> t == InstanceStep(spec)
      ensures t.key == GitOpsStage.CLUSTER_CONFIG ==> t == ConfigStep(spec)
    {
      LateFrom(spec, order, t);
      GitOpsByKey(spec, t);
    }
  }

  lemma OnlyMesh(spec: Spec, order: seq<string>)
    ensures var p := MainPlan(spec, order);
            OnlyBy(p, JaegerStep(spec)) && OnlyBy(p, MeshUsersStep(spec)) && OnlyBy(p, RollStep(spec))
  {
    hide MainPlan, FromGitOps, MeshStage.ControlPlan, MeshStage.Subjects, GitOpsStage.ProjectNames;
    forall t | t in MainPlan(spec, order) && Makes(t).Some? && LateMesh(Makes(t).value)
      ensures t.key == MeshStage.JAEGER_USERS ==> t == JaegerStep(spec)
      ensures t.key == MeshStage.MESH_USERS ==> t == MeshUsersStep(spec)
      ensures t.key == MeshStage.MEMBER_ROLL ==> t == RollStep(spec)
    {
      LateFrom(spec, order, t);
      MeshByKey(spec, t);
    }
  }

  lemma OnlyApp(spec: Spec, order: seq<string>, project: string)
    ensures OnlyBy(MainPlan(spec, order), AppStep(project))
  {
    hide MainPlan, FromGitOps, MeshStage.ControlPlan;
    forall t | t in MainPlan(spec, order) && Makes(t) == Makes(AppStep(project)) ensures t == AppStep(project) {
      LateFrom(spec, order, t);
      GitOpsByKey(spec, t);
    }
  }
}
