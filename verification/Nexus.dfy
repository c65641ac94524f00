/** The Nexus stage: a creation plan and its exact reverse. */
module NexusStage {
  import opened World
  import opened Cluster
  import opened Steps
  import opened Gates
  import opened Scans
  import opened Plans
  import opened Calls
  import opened Undo

  const NEXUS := "nexus"
  const OPERATOR := "nexus-operator"

  /** The objects in creation order. */
  const KEYS: seq<Key> :=
    [Key(Namespace, "", NEXUS),
     Key(CustomResourceDefinition, "", "nexus.gpte.opentlc.com"),
     Key(ServiceAccount, NEXUS, OPERATOR),
     Key(ClusterRole, "", OPERATOR),
     Key(ClusterRoleBinding, "", OPERATOR),
     Key(Deployment, NEXUS, OPERATOR),
     Key(Kind.Nexus, NEXUS, NEXUS)]

  const DEPLOYMENT := Key(Deployment, NEXUS, NEXUS)

  function AddPlan(): Plan {
    Ensures(KEYS) + [AwaitStep(DEPLOYMENT)]
  }

  function DeletePlan(): Plan {
    Removes(Reversed(KEYS))
  }

  method AddNexus(c: Client) returns (r: Result)
    modifies c
    ensures Answer(c.State(), r) == Run(AddPlan(), 0, old(c.State()))
  {
    hide Do;
    ghost var p, goal := AddPlan(), Run(AddPlan(), 0, c.State());
    r := Ensure(c, Key(Namespace, "", NEXUS), Bare);
    if r != Done { return; }
    assert goal == Run(p, 1, c.State());
    r := Ensure(c, Key(CustomResourceDefinition, "", "nexus.gpte.opentlc.com"), Bare);
    if r != Done { return; }
    assert goal == Run(p, 2, c.State());
    r := Ensure(c, Key(ServiceAccount, NEXUS, OPERATOR), Bare);
    if r != Done { return; }
    assert goal == Run(p, 3, c.State());
    r := Ensure(c, Key(ClusterRole, "", OPERATOR), Bare);
    if r != Done { return; }
    assert goal == Run(p, 4, c.State());
    r := Ensure(c, Key(ClusterRoleBinding, "", OPERATOR), Bare);
    if r != Done { return; }
    assert goal == Run(p, 5, c.State());
    r := Ensure(c, Key(Deployment, NEXUS, OPERATOR), Bare);
    if r != Done { return; }
    assert goal == Run(p, 6, c.State());
    r := Ensure(c, Key(Kind.Nexus, NEXUS, NEXUS), Bare);
    if r != Done { return; }
    assert goal == Run(p, 7, c.State());
    r := GetDeploymentStatus(c, DEPLOYMENT);
  }

  method DeleteNexus(c: Client) returns (r: Result)
    modifies c
    ensures Answer(c.State(), r) == Run(DeletePlan(), 0, old(c.State()))
  {
    hide Do;
    ghost var p, goal := DeletePlan(), Run(DeletePlan(), 0, c.State());
    r := Remove(c, Key(Kind.Nexus, NEXUS, NEXUS));
    if r != Done { return; }
    assert goal == Run(p, 1, c.State());
    r := Remove(c, Key(Deployment, NEXUS, OPERATOR));
    if r != Done { return; }
    assert goal == Run(p, 2, c.State());
    r := Remove(c, Key(ClusterRoleBinding, "", OPERATOR));
    if r != Done { return; }
    assert goal == Run(p, 3, c.State());
    r := Remove(c, Key(ClusterRole, "", OPERATOR));
    if r != Done { return; }
    assert goal == Run(p, 4, c.State());
    r := Remove(c, Key(ServiceAccount, NEXUS, OPERATOR));
    if r != Done { return; }
    assert goal == Run(p, 5, c.State());
    r := Remove(c, Key(CustomResourceDefinition, "", "nexus.gpte.opentlc.com"));
    if r != Done { return; }
    assert goal == Run(p, 6, c.State());
    r := Remove(c, Key(Namespace, "", NEXUS));
  }

  /** The stage of one pass. */
  function Stage(spec: Spec): Plan {
    if spec.nexusEnabled then AddPlan() else []
  }

  method ReconcileNexus(c: Client, spec: Spec) returns (r: Result)
    modifies c
    ensures Answer(c.State(), r) == Run(Stage(spec), 0, old(c.State()))
  {
    r := Done;
    if spec.nexusEnabled {
      r := AddNexus(c);
    }
  }

  /** Adding without faults and then deleting without faults gives back the store, whether or not the server became
      ready in between. */
  lemma UndoExact(w: World, v: World)
    requires Calm(w) && Calm(v) && forall k :: k in KEYS ==> k !in w.store
    requires v.store == Run(AddPlan(), 0, w).w.store
    ensures Run(DeletePlan(), 0, v).r == Done && Run(DeletePlan(), 0, v).w.store == w.store
  {
    AllDistinct();
    hide Do, Run, Ensures, Removes, Reversed;
    RunConcat(Ensures(KEYS), [AwaitStep(DEPLOYMENT)], 0, w);
    AwaitOnly(Run(Ensures(KEYS), 0, w).w);
    UndoKeys(KEYS, w, v);
  }

  lemma AllDistinct()
    ensures Distinct(KEYS)
  {
  }

  lemma AwaitOnly(w: World)
    ensures Run([AwaitStep(DEPLOYMENT)], 0, w).w.store == w.store
  {
    GateExact(w, DEPLOYMENT);
    var a := Do(AwaitStep(DEPLOYMENT), w);
    assert Run([AwaitStep(DEPLOYMENT)], 1, a.w) == Answer(a.w, Done);
  }

  /** However a teardown is interrupted, what is left of Nexus is a prefix of its creation order. */
  lemma InterruptedTeardown(w: World) returns (m: nat)
    requires forall k :: k in KEYS ==> k in w.store
    ensures var a := Run(DeletePlan(), 0, w);
            && m <= |KEYS|
            && a.w.store.Keys * KeySet(KEYS) == KeySet(KEYS[..m])
            && a.w.store.Keys - KeySet(KEYS) == w.store.Keys - KeySet(KEYS)
            && (a.r == Done ==> m == 0)
  {
    AllDistinct();
    m := TeardownPrefix(KEYS, w);
  }
}
