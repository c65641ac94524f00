/** The Vault stage: server and agent injector share a namespace and a security context. */
module VaultStage {
  import opened World
  import opened Cluster
  import opened Steps
  import opened Plans
  import opened Calls
  import opened Undo

  const VAULT := "vault"
  const AGENT := "vault-agent-injector"

  const NAMESPACE := Key(Namespace, "", VAULT)
  const CONTEXT := Key(SecurityContextConstraints, "", VAULT)
  const PRIVILEGED := Key(SecurityContextConstraints, "", "privileged")

  function AccountUser(account: string): string {
    "system:serviceaccount:" + VAULT + ":" + account
  }

  function ServerPlan(): Plan {
    [EnsureStep(NAMESPACE, Bare),
     EnsureStep(Key(ConfigMap, VAULT, "vault-config"), Bare),
     EnsureStep(Key(ServiceAccount, VAULT, VAULT), Bare),
     CloneStep(CONTEXT, PRIVILEGED, AccountUser(VAULT)),
     EnsureStep(Key(ClusterRoleBinding, "", "vault-server-binding"), Bare),
     EnsureStep(Key(Service, VAULT, "vault-internal"), Bare),
     EnsureStep(Key(Service, VAULT, VAULT), Bare),
     EnsureStep(Key(StatefulSet, VAULT, VAULT), Bare)]
  }

  function AgentPlan(): Plan {
    [EnsureStep(NAMESPACE, Bare),
     EnsureStep(Key(ServiceAccount, VAULT, AGENT), Bare),
     CloneStep(CONTEXT, PRIVILEGED, AccountUser(AGENT)),
     EnsureStep(Key(ClusterRole, "", AGENT), Bare),
     EnsureStep(Key(ClusterRoleBinding, "", AGENT), Bare),
     EnsureStep(Key(Service, VAULT, AGENT), Bare),
     EnsureStep(Key(Deployment, VAULT, AGENT), Bare),
     EnsureStep(Key(MutatingWebhook, "", "vault-agent-injector-cfg"), Bare)]
  }

  method AddVaultServer(c: Client) returns (r: Result)
    modifies c
    ensures Answer(c.State(), r) == Run(ServerPlan(), 0, old(c.State()))
  {
    hide Do;
    ghost var p, goal := ServerPlan(), Run(ServerPlan(), 0, c.State());
    r := Ensure(c, NAMESPACE, Bare);
    if r != Done { return; }
    assert goal == Run(p, 1, c.State());
    r := Ensure(c, Key(ConfigMap, VAULT, "vault-config"), Bare);
    if r != Done { return; }
    assert goal == Run(p, 2, c.State());
    r := Ensure(c, Key(ServiceAccount, VAULT, VAULT), Bare);
    if r != Done { return; }
    assert goal == Run(p, 3, c.State());
    r := Clone(c, CONTEXT, PRIVILEGED, AccountUser(VAULT));
    if r != Done { return; }
    assert goal == Run(p, 4, c.State());
    r := Ensure(c, Key(ClusterRoleBinding, "", "vault-server-binding"), Bare);
    if r != Done { return; }
    assert goal == Run(p, 5, c.State());
    r := Ensure(c, Key(Service, VAULT, "vault-internal"), Bare);
    if r != Done { return; }
    assert goal == Run(p, 6, c.State());
    r := Ensure(c, Key(Service, VAULT, VAULT), Bare);
    if r != Done { return; }
    assert goal == Run(p, 7, c.State());
    r := Ensure(c, Key(StatefulSet, VAULT, VAULT), Bare);
  }

  method AddVaultAgentInjector(c: Client) returns (r: Result)
    modifies c
    ensures Answer(c.State(), r) == Run(AgentPlan(), 0, old(c.State()))
  {
    hide Do;
    ghost var p, goal := AgentPlan(), Run(AgentPlan(), 0, c.State());
    r := Ensure(c, NAMESPACE, Bare);
    if r != Done { return; }
    assert goal == Run(p, 1, c.State());
    r := Ensure(c, Key(ServiceAccount, VAULT, AGENT), Bare);
    if r != Done { return; }
    assert goal == Run(p, 2, c.State());
    r := Clone(c, CONTEXT, PRIVILEGED, AccountUser(AGENT));
    if r != Done { return; }
    assert goal == Run(p, 3, c.State());
    r := Ensure(c, Key(ClusterRole, "", AGENT), Bare);
    if r != Done { return; }
    assert goal == Run(p, 4, c.State());
    r := Ensure(c, Key(ClusterRoleBinding, "", AGENT), Bare);
    if r != Done { return; }
    assert goal == Run(p, 5, c.State());
    r := Ensure(c, Key(Service, VAULT, AGENT), Bare);
    if r != Done { return; }
    assert goal == Run(p, 6, c.State());
    r := Ensure(c, Key(Deployment, VAULT, AGENT), Bare);
    if r != Done { return; }
    assert goal == Run(p, 7, c.State());
    r := Ensure(c, Key(MutatingWebhook, "", "vault-agent-injector-cfg"), Bare);
  }

  function AddPlan(): Plan {
    ServerPlan() + AgentPlan()
  }

  function Stage(spec: Spec): Plan {
    if spec.vaultEnabled then AddPlan() else []
  }

  method ReconcileVault(c: Client, spec: Spec) returns (r: Result)
    modifies c
    ensures Answer(c.State(), r) == Run(Stage(spec), 0, old(c.State()))
  {
    hide Do;
    r := Done;
    if spec.vaultEnabled {
      RunConcat(ServerPlan(), AgentPlan(), 0, c.State());
      r := AddVaultServer(c);
      if r != Done { return; }
      r := AddVaultAgentInjector(c);
    }
  }

  /* ---------- Deletion: the server first, then the agent, then the namespace ---------- */

  function DropServer(): Plan {
    [RemoveStep(Key(StatefulSet, VAULT, VAULT)),
     RemoveStep(Key(Service, VAULT, VAULT)),
     RemoveStep(Key(Service, VAULT, "vault-internal")),
     RemoveStep(Key(ClusterRoleBinding, "", "vault-server-binding")),
     DropStep(CONTEXT),
     RemoveStep(Key(ServiceAccount, VAULT, VAULT)),
     RemoveStep(Key(ConfigMap, VAULT, "vault-config"))]
  }

  function DropAgent(): Plan {
    [RemoveStep(Key(MutatingWebhook, "", "vault-agent-injector-cfg")),
     RemoveStep(Key(Deployment, VAULT, AGENT)),
     RemoveStep(Key(Service, VAULT, AGENT)),
     RemoveStep(Key(ClusterRoleBinding, "", AGENT)),
     RemoveStep(Key(ClusterRole, "", AGENT)),
     DropStep(CONTEXT),
     RemoveStep(Key(ServiceAccount, VAULT, AGENT))]
  }

  function DeletePlan(): Plan {
    DropServer() + DropAgent() + [RemoveStep(NAMESPACE)]
  }

  method DeleteVaultServer(c: Client) returns (r: Result)
    modifies c
    ensures Answer(c.State(), r) == Run(DropServer(), 0, old(c.State()))
  {
    hide Do;
    ghost var p, goal := DropServer(), Run(DropServer(), 0, c.State());
    r := Remove(c, Key(StatefulSet, VAULT, VAULT));
    if r != Done { return; }
    assert goal == Run(p, 1, c.State());
    r := Remove(c, Key(Service, VAULT, VAULT));
    if r != Done { return; }
    assert goal == Run(p, 2, c.State());
    r := Remove(c, Key(Service, VAULT, "vault-internal"));
    if r != Done { return; }
    assert goal == Run(p, 3, c.State());
    r := Remove(c, Key(ClusterRoleBinding, "", "vault-server-binding"));
    if r != Done { return; }
    assert goal == Run(p, 4, c.State());
    r := Drop(c, CONTEXT);
    if r != Done { return; }
    assert goal == Run(p, 5, c.State());
    r := Remove(c, Key(ServiceAccount, VAULT, VAULT));
    if r != Done { return; }
    assert goal == Run(p, 6, c.State());
    r := Remove(c, Key(ConfigMap, VAULT, "vault-config"));
  }

  method DeleteVaultAgentInjector(c: Client) returns (r: Result)
    modifies c
    ensures Answer(c.State(), r) == Run(DropAgent(), 0, old(c.State()))
  {
    hide Do;
    ghost var p, goal := DropAgent(), Run(DropAgent(), 0, c.State());
    r := Remove(c, Key(MutatingWebhook, "", "vault-agent-injector-cfg"));
    if r != Done { return; }
    assert goal == Run(p, 1, c.State());
    r := Remove(c, Key(Deployment, VAULT, AGENT));
    if r != Done { return; }
    assert goal == Run(p, 2, c.State());
    r := Remove(c, Key(Service, VAULT, AGENT));
    if r != Done { return; }
    assert goal == Run(p, 3, c.State());
    r := Remove(c, Key(ClusterRoleBinding, "", AGENT));
    if r != Done { return; }
    assert goal == Run(p, 4, c.State());
    r := Remove(c, Key(ClusterRole, "", AGENT));
    if r != Done { return; }
    assert goal == Run(p, 5, c.State());
    r := Drop(c, CONTEXT);
    if r != Done { return; }
    assert goal == Run(p, 6, c.State());
    r := Remove(c, Key(ServiceAccount, VAULT, AGENT));
  }

  method DeleteVault(c: Client) returns (r: Result)
    modifies c
    ensures Answer(c.State(), r) == Run(DeletePlan(), 0, old(c.State()))
  {
    hide Do;
    RunConcat(DropServer() + DropAgent(), [RemoveStep(NAMESPACE)], 0, c.State());
    RunConcat(DropServer(), DropAgent(), 0, c.State());
    r := DeleteVaultServer(c);
    if r != Done { return; }
    r := DeleteVaultAgentInjector(c);
    if r != Done { return; }
    r := Remove(c, NAMESPACE);
  }

  /** Undo is exact despite the doubly ensured namespace and security context: given the privileged context and none
      of Vault's objects, adding and then deleting without faults gives back the store. */
  lemma UndoExact(w: World, v: World)
    requires Calm(w) && Calm(v) && PRIVILEGED in w.store
    requires forall j :: 0 <= j < |AddPlan()| ==> AddPlan()[j].key !in w.store
    requires v.store == Run(AddPlan(), 0, w).w.store
    ensures Run(DeletePlan(), 0, v).r == Done && Run(DeletePlan(), 0, v).w.store == w.store
  {
    SameObjects();
    AddShape(w.store);
    DeleteShape();
    hide Do, Run, From, AddPlan, DeletePlan, Cloneable;
    Undo.UndoExact(AddPlan(), DeletePlan(), w, v);
  }

  lemma AddShape(store: map<Key, Obj>)
    requires PRIVILEGED in store
    ensures Cloneable(AddPlan(), store) && forall j :: 0 <= j < |AddPlan()| ==> Putting(AddPlan()[j])
  {
  }

  /** Nothing is removed after it has been removed or dropped before. */
  lemma DeleteShape()
    ensures var del := DeletePlan();
            && (forall j :: 0 <= j < |del| ==> Pulling(del[j]))
            && forall j, h :: 0 <= j < h < |del| && Pulling(del[j]) && del[h].RemoveStep? ==> del[j].key != del[h].key
  {
  }

  lemma SameObjects()
    ensures From(DeletePlan(), 0) == From(AddPlan(), 0)
  {
    var add, del := AddPlan(), DeletePlan();
    forall j | 0 <= j < |add| ensures add[j].key in From(del, 0) { AddInDelete(j); }
    forall j | 0 <= j < |del| ensures del[j].key in From(add, 0) { DeleteInAdd(j); }
    assert forall k :: k in From(add, 0) ==> exists j :: 0 <= j < |add| && add[j].key == k;
    assert forall k :: k in From(del, 0) ==> exists j :: 0 <= j < |del| && del[j].key == k;
    hide AddPlan, DeletePlan;
  }

  lemma AddInDelete(j: nat)
    requires j < |AddPlan()|
    ensures AddPlan()[j].key in From(DeletePlan(), 0)
  {
    var there := [14, 6, 5, 4, 3, 2, 1, 0, 14, 13, 4, 11, 10, 9, 8, 7];
    assert AddPlan()[j].key == DeletePlan()[there[j]].key;
  }

  lemma DeleteInAdd(j: nat)
    requires j < |DeletePlan()|
    ensures DeletePlan()[j].key in From(AddPlan(), 0)
  {
    var back := [7, 6, 5, 4, 3, 2, 1, 15, 14, 13, 12, 11, 3, 9, 0];
    assert DeletePlan()[j].key == AddPlan()[back[j]].key;
  }
}
