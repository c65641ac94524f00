/** The service mesh stage: three operators, then the control plane with its member roll and subject lists. */
module MeshStage {
  import opened World
  import opened Cluster
  import opened Steps
  import opened Plans
  import opened Calls
  import opened Strings = Text
  import GitOpsStage
  import ProjectStage

  const OPERATORS := "openshift-operators"
  const REDHAT := "openshift-operators-redhat"
  const ISTIO := "istio-system"

  const JAEGER := Key(Subscription, OPERATORS, "jaeger-product")
  const KIALI := Key(Subscription, OPERATORS, "kiali-ossm")
  const MESH := Key(Subscription, OPERATORS, "servicemeshoperator")
  const OPERATOR := Key(Deployment, OPERATORS, "istio-operator")
  const JAEGER_USERS := Key(RoleBinding, ISTIO, "jaeger-users")
  const MESH_USERS := Key(RoleBinding, ISTIO, "mesh-users")
  const MEMBER_ROLL := Key(MemberRoll, ISTIO, "default")

  function Elastic(spec: Spec): Key {
    Key(Subscription, REDHAT, "elasticsearch-operator-" + spec.elasticChannel)
  }

  /** user1 .. userN. */
  function Usernames(n: nat): seq<string> {
    seq(n, i requires 0 <= i < n => "user" + Dec(i + 1))
  }

  /** The subjects of the mesh role bindings: with GitOps, Argo CD's controller comes first. */
  function Subjects(spec: Spec, n: nat): seq<string> {
    (if spec.gitopsEnabled then [ProjectStage.ARGOCD_CONTROLLER] else []) + Usernames(n)
  }

  function ElasticPlan(spec: Spec): Plan {
    [EnsureStep(Key(Namespace, "", REDHAT), Bare), EnsureStep(Elastic(spec), Bare),
     ApproveStep(Elastic(spec), spec.elasticCsv)]
  }

  function JaegerPlan(spec: Spec): Plan {
    [EnsureStep(JAEGER, Bare), ApproveStep(JAEGER, spec.jaegerCsv)]
  }

  function KialiPlan(spec: Spec): Plan {
    [EnsureStep(KIALI, Bare), ApproveStep(KIALI, spec.kialiCsv)]
  }

  function GatePlan(spec: Spec): Plan {
    [EnsureStep(MESH, Bare), ApproveStep(MESH, spec.meshCsv), AwaitStep(OPERATOR)]
  }

  function ControlPlan(spec: Spec): Plan {
    [EnsureStep(Key(Namespace, "", ISTIO), Bare),
     EnsureStep(Key(Role, ISTIO, "jaeger-user"), Bare),
     SyncStep(JAEGER_USERS, Names(Subjects(spec, spec.Seats())), Same),
     EnsureStep(MESH_USERS, Names(Subjects(spec, spec.Seats()))),
     EnsureStep(Key(ControlPlane, ISTIO, "basic"), Bare),
     SyncStep(MEMBER_ROLL, Names(GitOpsStage.ProjectNames(spec.staging, spec.Seats())), Same)]
  }

  function AddPlan(spec: Spec): Plan {
    ElasticPlan(spec) + (JaegerPlan(spec) + (KialiPlan(spec) + (GatePlan(spec) + ControlPlan(spec))))
  }

  function Stage(spec: Spec): Plan {
    if spec.meshEnabled || spec.serverlessEnabled then AddPlan(spec) else []
  }

  method AddElasticSearchOperator(c: Client, spec: Spec) returns (r: Result)
    modifies c
    ensures Answer(c.State(), r) == Run(ElasticPlan(spec), 0, old(c.State()))
  {
    hide Do;
    ghost var p, goal := ElasticPlan(spec), Run(ElasticPlan(spec), 0, c.State());
    var subscription := Key(Subscription, REDHAT, "elasticsearch-operator-" + spec.elasticChannel);
    r := Ensure(c, Key(Namespace, "", REDHAT), Bare);
    if r != Done { return; }
    assert goal == Run(p, 1, c.State());
    r := Ensure(c, subscription, Bare);
    if r != Done { return; }
    assert goal == Run(p, 2, c.State());
    r := ApproveInstallPlan(c, spec.elasticCsv, subscription);
  }

  method AddJaegerOperator(c: Client, spec: Spec) returns (r: Result)
    modifies c
    ensures Answer(c.State(), r) == Run(JaegerPlan(spec), 0, old(c.State()))
  {
    hide Do;
    ghost var p, goal := JaegerPlan(spec), Run(JaegerPlan(spec), 0, c.State());
    r := Ensure(c, JAEGER, Bare);
    if r != Done { return; }
    assert goal == Run(p, 1, c.State());
    r := ApproveInstallPlan(c, spec.jaegerCsv, JAEGER);
    if r != Done { return; }
    assert goal == Run(p, 2, c.State());
  }

  method AddKialiOperator(c: Client, spec: Spec) returns (r: Result)
    modifies c
    ensures Answer(c.State(), r) == Run(KialiPlan(spec), 0, old(c.State()))
  {
    hide Do;
    ghost var p, goal := KialiPlan(spec), Run(KialiPlan(spec), 0, c.State());
    r := Ensure(c, KIALI, Bare);
    if r != Done { return; }
    assert goal == Run(p, 1, c.State());
    r := ApproveInstallPlan(c, spec.kialiCsv, KIALI);
    if r != Done { return; }
    assert goal == Run(p, 2, c.State());
  }

  method Gate(c: Client, spec: Spec) returns (r: Result)
    modifies c
    ensures Answer(c.State(), r) == Run(GatePlan(spec), 0, old(c.State()))
  {
    hide Do;
    ghost var p, goal := GatePlan(spec), Run(GatePlan(spec), 0, c.State());
    r := Ensure(c, MESH, Bare);
    if r != Done { return; }
    assert goal == Run(p, 1, c.State());
    r := ApproveInstallPlan(c, spec.meshCsv, MESH);
    if r != Done { return; }
    assert goal == Run(p, 2, c.State());
    r := GetDeploymentStatus(c, OPERATOR);
  }

  /** The member list is what the comma list of the cluster configuration splits into. */
  method BuildLists(spec: Spec) returns (istioMembers: seq<string>, istioUsers: seq<string>)
    ensures istioMembers == GitOpsStage.ProjectNames(spec.staging, spec.Seats())
    ensures istioUsers == Subjects(spec, spec.Seats())
    ensures ',' !in spec.staging && spec.Seats() > 0 ==>
              Split(GitOpsStage.NamespaceList(spec.staging, spec.Seats()), ',') == istioMembers
  {
    istioMembers, istioUsers := [], [];
    if spec.gitopsEnabled {
      istioUsers := istioUsers + [ProjectStage.ARGOCD_CONTROLLER];
    }
    var id := 1;
    while id <= spec.Seats()
      invariant 1 <= id <= spec.Seats() + 1
      invariant istioMembers == GitOpsStage.ProjectNames(spec.staging, id - 1)
      invariant istioUsers == Subjects(spec, id - 1)
    {
      istioMembers := istioMembers + [spec.staging + Dec(id)];
      istioUsers := istioUsers + ["user" + Dec(id)];
      assert Usernames(id) == Usernames(id - 1) + ["user" + Dec(id)];
      id := id + 1;
    }
    if ',' !in spec.staging {
      GitOpsStage.ListRoundTrip(spec.staging, spec.Seats());
    }
  }

  method AddServiceMesh(c: Client, spec: Spec) returns (r: Result)
    modifies c
    ensures Answer(c.State(), r) == Run(GatePlan(spec) + ControlPlan(spec), 0, old(c.State()))
  {
    hide Do, Subjects, GitOpsStage.ProjectNames;
    ghost var p := ControlPlan(spec);
    RunConcat(GatePlan(spec), p, 0, c.State());
    r := Gate(c, spec);
    if r != Done { return; }
    ghost var goal := Run(p, 0, c.State());
    r := Ensure(c, Key(Namespace, "", ISTIO), Bare);
    if r != Done { return; }
    assert goal == Run(p, 1, c.State());
    var istioMembers, istioUsers := BuildLists(spec);
    r := Ensure(c, Key(Role, ISTIO, "jaeger-user"), Bare);
    if r != Done { return; }
    assert goal == Run(p, 2, c.State());
    r := Sync(c, JAEGER_USERS, Names(istioUsers), Same);
    if r != Done { return; }
    assert goal == Run(p, 3, c.State());
    r := Ensure(c, MESH_USERS, Names(istioUsers));
    if r != Done { return; }
    assert goal == Run(p, 4, c.State());
    r := Ensure(c, Key(ControlPlane, ISTIO, "basic"), Bare);
    if r != Done { return; }
    assert goal == Run(p, 5, c.State());
    r := Sync(c, MEMBER_ROLL, Names(istioMembers), Same);
  }

  method ReconcileServiceMesh(c: Client, spec: Spec) returns (r: Result)
    modifies c
    ensures Answer(c.State(), r) == Run(Stage(spec), 0, old(c.State()))
  {
    r := Done;
    if spec.meshEnabled || spec.serverlessEnabled {
      hide Do, Run, ElasticPlan, JaegerPlan, KialiPlan, GatePlan, ControlPlan;
      ghost var mesh := GatePlan(spec) + ControlPlan(spec);
      RunConcat(ElasticPlan(spec), JaegerPlan(spec) + (KialiPlan(spec) + mesh), 0, c.State());
      r := AddElasticSearchOperator(c, spec);
      if r != Done { return; }
      RunConcat(JaegerPlan(spec), KialiPlan(spec) + mesh, 0, c.State());
      r := AddJaegerOperator(c, spec);
      if r != Done { return; }
      RunConcat(KialiPlan(spec), mesh, 0, c.State());
      r := AddKialiOperator(c, spec);
      if r != Done { return; }
      r := AddServiceMesh(c, spec);
    }
  }
}
