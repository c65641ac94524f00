/** The GitOps stage: approval and readiness, then per-user Argo CD objects and the texts gathered along the way. */
module GitOpsStage {
  import opened World
  import opened Cluster
  import opened Steps
  import opened Plans
  import opened Calls
  import opened Strings = Text
  import Policy
  import ProjectStage

  const SUBSCRIPTION := Key(Subscription, "openshift-operators", "openshift-gitops-operator")
  const OPERATOR := Key(Deployment, "openshift-operators", "gitops-operator")
  const ARGOCD := "argocd"
  const MANAGER := "argocd-manager"
  const SERVER := Key(Deployment, ARGOCD, "argocd-server")
  const ACCOUNTS := Key(ConfigMap, ARGOCD, "argocd-cm")
  const INSTANCE := Key(ArgoCD, ARGOCD, ARGOCD)
  const CLUSTER_CONFIG := Key(Secret, ARGOCD, "argocd-default-cluster-config")

  /* ---------- What the loop gathers ---------- */

  /** staging1 .. stagingN. */
  function ProjectNames(staging: string, n: nat): seq<string> {
    seq(n, i requires 0 <= i < n => staging + Dec(i + 1))
  }

  function NamespaceList(staging: string, n: nat): string {
    Join(ProjectNames(staging, n), ',')
  }

  function Account(id: nat): string {
    "accounts.user" + Dec(id)
  }

  function Accounts(n: nat): map<string, string> {
    if n == 0 then map[] else Accounts(n - 1)[Account(n) := "login"]
  }

  /** List round trip: the comma list splits into the numbered names in order; for no users it is empty. */
  lemma ListRoundTrip(staging: string, n: nat)
    requires ',' !in staging
    ensures n == 0 ==> NamespaceList(staging, n) == ""
    ensures n > 0 ==> Split(NamespaceList(staging, n), ',') == ProjectNames(staging, n)
  {
    forall p | p in ProjectNames(staging, n) ensures ',' !in p {
      var i :| 0 <= i < n && p == ProjectNames(staging, n)[i];
      DecDigits(i + 1);
    }
    if n > 0 {
      SplitJoin(ProjectNames(staging, n), ',');
    }
  }

  lemma ListSnoc(staging: string, n: nat)
    ensures NamespaceList(staging, n + 1) ==
            if n == 0 then staging + Dec(1) else NamespaceList(staging, n) + "," + (staging + Dec(n + 1))
  {
    var ps := ProjectNames(staging, n + 1);
    assert ps[..n] == ProjectNames(staging, n);
  }

  /** The accounts are exactly those of the users 1 .. n, so those of fewer users are contained in them. */
  lemma {:induction false} AccountsExact(n: nat, k: string)
    ensures k in Accounts(n) <==> exists i: nat :: 1 <= i <= n && k == Account(i)
    ensures k in Accounts(n) ==> Accounts(n)[k] == "login"
  {
    if n > 0 {
      AccountsExact(n - 1, k);
    }
  }

  lemma AccountsContained(m: nat, n: nat)
    ensures Contained(Accounts(m), Accounts(n)) <==> m <= n
  {
    if m <= n {
      forall k | k in Accounts(m) ensures Lookup(Accounts(n), k) == Accounts(m)[k] {
        AccountsExact(m, k);
        AccountsExact(n, k);
      }
    } else {
      AccountsExact(m, Account(m));
      AccountsExact(n, Account(m));
      forall i: nat | i <= n ensures Account(i) != Account(m) {
        NumberedInjective("accounts.user", i, m);
      }
      assert Account(m) in Accounts(m) && Lookup(Accounts(n), Account(m)) == "";
    }
  }

  function ClusterConfig(list: string): map<string, string> {
    map["config" := "{\"tlsClientConfig\":{\"insecure\":false}}", "name" := "in-cluster",
        "namespaces" := list, "server" := "https://kubernetes.default.svc"]
  }

  /* ---------- The plan ---------- */

  function Opening(spec: Spec): Plan {
    [EnsureStep(SUBSCRIPTION, Bare), ApproveStep(SUBSCRIPTION, spec.gitopsCsv), AwaitStep(OPERATOR),
     EnsureStep(Key(Namespace, "", ARGOCD), Bare)]
  }

  function Block(staging: string, id: nat): Plan {
    var project := staging + Dec(id);
    [SyncStep(Key(AppProject, ARGOCD, project), Names([project]), Same),
     EnsureStep(Key(Role, project, MANAGER), Bare),
     SyncStep(Key(RoleBinding, project, MANAGER), Names([ProjectStage.ARGOCD_CONTROLLER]), Same)]
  }

  function Blocks(spec: Spec): seq<Plan> {
    seq(spec.Seats(), i requires 0 <= i < spec.Seats() => Block(spec.staging, i + 1))
  }

  function Closing(spec: Spec): Plan {
    [EnsureStep(Key(Secret, ARGOCD, "argocd-secret"), Bare),
     SyncStep(ACCOUNTS, Table(Accounts(spec.Seats())), Within),
     SyncStep(INSTANCE, Text(Policy.PolicyText(spec.staging, spec.Seats())), Same),
     AwaitStep(SERVER),
     SyncStep(CLUSTER_CONFIG, Table(ClusterConfig(NamespaceList(spec.staging, spec.Seats()))), Merged)]
  }

  function AddPlan(spec: Spec): Plan {
    Opening(spec) + (Flat(Blocks(spec), 0) + Closing(spec))
  }

  function Stage(spec: Spec): Plan {
    if spec.gitopsEnabled then AddPlan(spec) else []
  }

  /* ---------- addGitOps ---------- */

  method Open(c: Client, spec: Spec) returns (r: Result)
    modifies c
    ensures Answer(c.State(), r) == Run(Opening(spec), 0, old(c.State()))
  {
    hide Do;
    ghost var p, goal := Opening(spec), Run(Opening(spec), 0, c.State());
    r := Ensure(c, SUBSCRIPTION, Bare);
    if r != Done { return; }
    assert goal == Run(p, 1, c.State());
    r := ApproveInstallPlan(c, spec.gitopsCsv, SUBSCRIPTION);
    if r != Done { return; }
    assert goal == Run(p, 2, c.State());
    r := GetDeploymentStatus(c, OPERATOR);
    if r != Done { return; }
    assert goal == Run(p, 3, c.State());
    r := Ensure(c, Key(Namespace, "", ARGOCD), Bare);
  }

  method AddUserProject(c: Client, staging: string, id: nat) returns (r: Result)
    modifies c
    ensures Answer(c.State(), r) == Run(Block(staging, id), 0, old(c.State()))
  {
    hide Do;
    ghost var p, goal := Block(staging, id), Run(Block(staging, id), 0, c.State());
    var project := staging + Dec(id);
    r := Sync(c, Key(AppProject, ARGOCD, project), Names([project]), Same);
    if r != Done { return; }
    assert goal == Run(p, 1, c.State());
    r := Ensure(c, Key(Role, project, MANAGER), Bare);
    if r != Done { return; }
    assert goal == Run(p, 2, c.State());
    r := Sync(c, Key(RoleBinding, project, MANAGER), Names([ProjectStage.ARGOCD_CONTROLLER]), Same);
  }

  method ManageClusterConfig(c: Client, namespaceList: string) returns (r: Result)
    modifies c
    ensures Answer(c.State(), r)
        == Do(SyncStep(CLUSTER_CONFIG, Table(ClusterConfig(namespaceList)), Merged), old(c.State()))
  {
    hide Do;
    var data := map["config" := "{\"tlsClientConfig\":{\"insecure\":false}}"];
    data := data["name" := "in-cluster"];
    data := data["namespaces" := namespaceList];
    data := data["server" := "https://kubernetes.default.svc"];
    assert data == ClusterConfig(namespaceList);
    r := Sync(c, CLUSTER_CONFIG, Table(data), Merged);
  }

  method Close(c: Client, spec: Spec, accounts: map<string, string>, policy: string, namespaceList: string)
    returns (r: Result)
    requires accounts == Accounts(spec.Seats()) && policy == Policy.PolicyText(spec.staging, spec.Seats())
    requires namespaceList == NamespaceList(spec.staging, spec.Seats())
    modifies c
    ensures Answer(c.State(), r) == Run(Closing(spec), 0, old(c.State()))
  {
    hide Do, Accounts, Policy.PolicyText, NamespaceList, ClusterConfig;
    ghost var p, goal := Closing(spec), Run(Closing(spec), 0, c.State());
    r := Ensure(c, Key(Secret, ARGOCD, "argocd-secret"), Bare);
    if r != Done { return; }
    assert goal == Run(p, 1, c.State());
    r := Sync(c, ACCOUNTS, Table(accounts), Within);
    if r != Done { return; }
    assert goal == Run(p, 2, c.State());
    r := Sync(c, INSTANCE, Text(policy), Same);
    if r != Done { return; }
    assert goal == Run(p, 3, c.State());
    r := GetDeploymentStatus(c, SERVER);
    if r != Done { return; }
    assert goal == Run(p, 4, c.State());
    r := ManageClusterConfig(c, namespaceList);
  }

  /** The literal with five lines that the loop appends for one user. */
  function PolicyOf(userRole: string, username: string, projectName: string): string {
    "p, " + userRole + ", applications, *, " + projectName + "/*, allow" + "\n"
    + ("p, " + userRole + ", clusters, get, " + "https://kubernetes.default.svc" + ", allow") + "\n"
    + ("p, " + userRole + ", projects, *," + projectName + ", allow") + "\n"
    + ("p, " + userRole + ", repositories, *, " + "http://gitea-server.gitea.svc:3000/" + username + "/*, allow") + "\n"
    + ("g, " + username + ", " + userRole) + "\n"
  }

  lemma PolicyLines(staging: string, id: nat)
    ensures PolicyOf("role:" + ("user" + Dec(id)), "user" + Dec(id), staging + Dec(id))
        == Policy.UserPolicy(staging, id)
  {
    assert Policy.Role(id) == "role:" + ("user" + Dec(id));
    var user, role, project := Policy.User(id), Policy.Role(id), Policy.Project(staging, id);
    assert Policy.AppLine(staging, id) == "p, " + role + ", applications, *, " + project + "/*, allow";
  }

  method AddGitOps(c: Client, spec: Spec) returns (r: Result)
    modifies c
    ensures Answer(c.State(), r) == Run(AddPlan(spec), 0, old(c.State()))
  {
    hide Do, Run, Flat, Opening, Closing, Block, NamespaceList, Policy.UserPolicy, PolicyOf;
    ghost var blocks, tail := Blocks(spec), Closing(spec);
    RunConcat(Opening(spec), Flat(blocks, 0) + tail, 0, c.State());
    r := Open(c, spec);
    if r != Done { return; }
    ghost var goal := Run(Flat(blocks, 0) + tail, 0, c.State());
    var users := spec.Seats();
    var argocdPolicy, namespaceList := "", "";
    var configMapData: map<string, string> := map[];
    var id := 1;
    EmptyList(spec.staging);
    while id <= users
      invariant 1 <= id <= users + 1
      invariant argocdPolicy == Policy.PolicyText(spec.staging, id - 1)
      invariant namespaceList == NamespaceList(spec.staging, id - 1)
      invariant configMapData == Accounts(id - 1)
      invariant Run(Flat(blocks, id - 1) + tail, 0, c.State()) == goal
      invariant goal == Run(AddPlan(spec), 0, old(c.State()))
    {
      var username := "user" + Dec(id);
      var userRole := "role:" + username;
      var projectName := spec.staging + Dec(id);
      ListSnoc(spec.staging, id - 1);
      PolicyLines(spec.staging, id);
      if id == 1 {
        namespaceList := projectName;
      } else {
        namespaceList := namespaceList + "," + projectName;
      }
      argocdPolicy := argocdPolicy + PolicyOf(userRole, username, projectName);
      configMapData := configMapData["accounts." + username := "login"];
      assert "accounts." + username == Account(id);
      RunBlock(blocks, tail, id - 1, c.State());
      r := AddUserProject(c, spec.staging, id);
      if r != Done { return; }
      id := id + 1;
    }
    LastBlock(blocks, tail);
    r := Close(c, spec, configMapData, argocdPolicy, namespaceList);
  }

  lemma EmptyList(staging: string)
    ensures NamespaceList(staging, 0) == ""
  {
  }

  lemma LastBlock(blocks: seq<Plan>, tail: Plan)
    ensures Flat(blocks, |blocks|) + tail == tail
  {
  }

  method ReconcileGitOps(c: Client, spec: Spec) returns (r: Result)
    modifies c
    ensures Answer(c.State(), r) == Run(Stage(spec), 0, old(c.State()))
  {
    r := Done;
    if spec.gitopsEnabled {
      r := AddGitOps(c, spec);
    }
  }
}
