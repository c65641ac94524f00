/** Progress of a pass in which no call fails by accident. */
module CleanPass {
  import opened World
  import opened Steps
  import opened Plans
  import opened Progress
  import opened Frame
  import opened Htpasswd
  import opened Accounts
  import opened Convergence
  import opened Reconcile
  import opened MainFacts
  import opened Runs
  import UserStage
  import PortalStage
  import ProjectStage
  import BookbagStage
  import NexusStage
  import GitOpsStage
  import MeshStage
  import VaultStage

  lemma CopiesPrivileged(spec: Spec, order: seq<string>, s: Step)
    requires s in MainPlan(spec, order) && s.CloneStep?
    ensures spec.vaultEnabled && s.source == VaultStage.PRIVILEGED
  {
    hide MainPlan, FromPortal, FromProject, FromBookbag, FromNexus, FromGitOps, FromMesh, FromVault;
    InMain(spec, order, s);
    if FromVault(s) {
      CopyInVault(s);
      VaultOnly(spec, order, s);
    } else {
      NoCopy(spec, order, s);
    }
  }

  lemma CopyInVault(s: Step)
    requires FromVault(s) && s.CloneStep?
    ensures s.source == VaultStage.PRIVILEGED
  {
  }

  lemma NoCopy(spec: Spec, order: seq<string>, s: Step)
    requires s.CloneStep?
    ensures !FromPortal(spec, order, s) && !FromProject(spec, s) && !FromBookbag(spec, s) && !FromNexus(s)
    ensures !FromGitOps(spec, s) && !FromMesh(spec, s)
  {
    hide FromPortal, FromProject, FromBookbag, FromNexus, FromGitOps, FromMesh;
    assert !FromPortal(spec, order, s) && !FromNexus(s) by { NoCopyListed(spec, order, s); }
    assert !FromProject(spec, s) && !FromBookbag(spec, s) by { NoCopyUsers(spec, s); }
    assert !FromGitOps(spec, s) by { NoCopyGitOps(spec, s); }
    assert !FromMesh(spec, s) by { NoCopyMesh(spec, s); }
  }

  lemma NoCopyListed(spec: Spec, order: seq<string>, s: Step)
    requires s.CloneStep?
    ensures !FromPortal(spec, order, s) && !FromNexus(s)
  {
  }

  lemma NoCopyUsers(spec: Spec, s: Step)
    requires s.CloneStep?
    ensures !FromProject(spec, s) && !FromBookbag(spec, s)
  {
  }

  lemma NoCopyGitOps(spec: Spec, s: Step)
    requires s.CloneStep?
    ensures !FromGitOps(spec, s)
  {
  }

  lemma NoCopyMesh(spec: Spec, s: Step)
    requires s.CloneStep?
    ensures !FromMesh(spec, s)
  {
  }

  /** The Vault stage is empty when Vault is off, and no other stage copies a context. */
  lemma VaultOnly(spec: Spec, order: seq<string>, s: Step)
    requires s in MainPlan(spec, order) && s.CloneStep?
    ensures spec.vaultEnabled
  {
    hide PortalStage.Stage, ProjectStage.Stage, BookbagStage.Stage, NexusStage.Stage, GitOpsStage.Stage,
         MeshStage.Stage, FromPortal, FromProject, FromBookbag, FromNexus, FromGitOps, FromMesh;
    var ss := Stages(spec, order);
    InFlat(ss, 0, s);
    var j :| 0 <= j < |ss| && s in ss[j];
    NoCopy(spec, order, s);
    if j != 9 { OtherStageSteps(spec, order, j, s); }
  }

  lemma OtherStageSteps(spec: Spec, order: seq<string>, j: nat, s: Step)
    requires j < |Stages(spec, order)| && j != 9 && s in Stages(spec, order)[j]
    ensures FromPortal(spec, order, s) || FromProject(spec, s) || FromBookbag(spec, s) || FromNexus(s)
        || FromGitOps(spec, s)
            || FromMesh(spec, s) || s.ForeignStep?
  {
    hide PortalStage.RedisPlan, PortalStage.DistributionPlan, ProjectStage.Stage, BookbagStage.Stage,
         NexusStage.AddPlan, GitOpsStage.Stage, MeshStage.ElasticPlan, MeshStage.JaegerPlan, MeshStage.KialiPlan,
         MeshStage.GatePlan, MeshStage.ControlPlan, FromProject, FromBookbag, FromNexus, FromGitOps;
    if j == 1 { InProject(spec, s); }
    else if j == 2 { InBookbag(spec, s); }
    else if j == 3 { InNexus(s); }
    else if j == 5 { InGitOps(spec, s); }
  }

  /** A stage that waits is switched on. */
  predicate Waits(spec: Spec) {
    spec.nexusEnabled || spec.gitopsEnabled || spec.meshEnabled || spec.serverlessEnabled
  }

  lemma GatesNeedWaits(spec: Spec, order: seq<string>, s: Step)
    requires s in MainPlan(spec, order) && GateStep(s)
    ensures Waits(spec)
  {
    hide PortalStage.RedisPlan, PortalStage.DistributionPlan, ProjectStage.Stage, BookbagStage.Stage,
         NexusStage.AddPlan, GitOpsStage.AddPlan, MeshStage.AddPlan, VaultStage.ServerPlan, VaultStage.AgentPlan,
         FromPortal, FromProject, FromBookbag, FromVault;
    var ss := Stages(spec, order);
    InFlat(ss, 0, s);
    var j :| 0 <= j < |ss| && s in ss[j];
    if j == 0 || j == 1 || j == 2 || j == 9 { UngatedStages(spec, order, j, s); }
  }

  lemma UngatedStages(spec: Spec, order: seq<string>, j: nat, s: Step)
    requires j == 0 || j == 1 || j == 2 || j == 9
    requires s in Stages(spec, order)[j]
    ensures !GateStep(s)
  {
    hide PortalStage.RedisPlan, PortalStage.DistributionPlan, ProjectStage.Stage, BookbagStage.Stage,
         VaultStage.ServerPlan, VaultStage.AgentPlan, NexusStage.Stage, GitOpsStage.Stage, MeshStage.Stage,
         FromProject, FromBookbag, FromVault, FromPortal;
    if j == 0 { assert FromPortal(spec, order, s) by { PortalSteps(spec, order, s); } NoGatePortal(spec, order, s); }
    else if j == 1 { InProject(spec, s); NoGateProject(spec, s); }
    else if j == 2 { InBookbag(spec, s); NoGateBookbag(spec, s); }
    else { VaultSteps(spec, s); VaultKeys(s); }
  }

  lemma PortalSteps(spec: Spec, order: seq<string>, s: Step)
    requires s in PortalStage.Stage(spec, order)
    ensures FromPortal(spec, order, s)
  {
    hide PortalStage.RedisPlan, PortalStage.DistributionPlan;
  }

  lemma VaultSteps(spec: Spec, s: Step)
    requires s in VaultStage.Stage(spec)
    ensures FromVault(s)
  {
    hide VaultStage.ServerPlan, VaultStage.AgentPlan;
  }

  lemma NoGatePortal(spec: Spec, order: seq<string>, s: Step)
    requires FromPortal(spec, order, s)
    ensures !GateStep(s)
  {
    hide PortalStage.Environment;
  }

  lemma NoGateProject(spec: Spec, s: Step)
    requires FromProject(spec, s)
    ensures !GateStep(s)
  {
  }

  lemma NoGateBookbag(spec: Spec, s: Step)
    requires FromBookbag(spec, s)
    ensures !GateStep(s)
  {
    hide BookbagStage.Environment, BookbagStage.Name;
  }

  /** Progress: a fault-free pass that has read its Workshop, with the privileged context there if Vault is on, gets
      past the users exactly when every stale listed user is complete; then it completes or waits at a gate, and with
      no waiting stage it completes. */
  lemma Completes(w: World, ch: Choice)
    requires Calm(w) && Possible(w, ch) && BuildStart(w).Some? && Chained(w.store)
    requires BuildStart(w).value.0.vaultEnabled ==> VaultStage.PRIVILEGED in w.store
    ensures var spec := BuildStart(w).value.0; var free := StaleComplete(w.store, Wanted(spec.prefix, spec.users));
            && (Pass(w, ch).r == Done ==> free)
            && (free ==> Pass(w, ch).r == Done || Pass(w, ch).r == Requeue)
            && (!Waits(spec) ==> (Pass(w, ch).r == Done <==> free))
  {
    hide Pass, BuildStart, UserStage.Stage, UserStage.Possible, MainPlan, Run, Chained, StaleComplete, Exact, Wanted,
         Reconcile.Possible, Managed, Waits;
    BuildStartFacts(w, ch);
    var spec, b := BuildStart(w).value.0, BuildStart(w).value.1;
    var p, u := MainPlan(spec, ch.guides), UserStage.Stage(spec, ch.users, b);
    CalmStage(spec, ch.users, b);
    StageCalm(spec, ch.users, b);
    UserStageAvoids(spec, ch.users, b, VaultStage.PRIVILEGED);
    MainFine(spec, ch.guides);
    forall s | s in p && s.CloneStep? ensures s.source in u.w.store { CopiesPrivileged(spec, ch.guides, s); }
    CalmStops(p, 0, u.w);
    if s :| s in p && GateStep(s) {
      GatesNeedWaits(spec, ch.guides, s);
    }
  }

  lemma StageCalm(spec: Spec, ch: UserStage.Choice, w: World)
    requires Calm(w)
    ensures Calm(UserStage.Stage(spec, ch, w).w)
  {
    hide DoList, Run;
    ListKeeps(w);
    RunCalm(UserStage.UserPlan(spec, ch), 0, DoList(w).w);
  }
}
