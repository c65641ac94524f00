/** Gate ordering over runs: what lies behind a readiness wait exists only once the gate has been passed. */
module GateRuns {
  import opened World
  import opened Steps
  import opened Gates
  import opened Scans
  import opened Plans
  import opened Progress
  import opened Frame
  import opened Accounts
  import opened Reconcile
  import opened Finalizer
  import opened MainFacts
  import opened Runs
  import Policy
  import UserStage
  import PortalStage
  import ProjectStage
  import BookbagStage
  import NexusStage
  import GitOpsStage
  import MeshStage
  import VaultStage

  /** The approval has returned without error, and one ready replica of the operator has been observed since. */
  ghost predicate Opened(trail: seq<Entry>, sub: Key, dep: Key) {
    exists i, j :: 0 <= i < j < |trail| && trail[i] == Cleared(sub) && trail[j] == Observed(dep, 1)
  }

  /** The waits for the two operators, and the GitOps stage's second wait, for the Argo CD server. */
  datatype Gate = GitOpsGate | MeshGate | ServerGate
  {
    function Sub(): Key {
      if MeshGate? then MeshStage.MESH else GitOpsStage.SUBSCRIPTION
    }

    function Dep(): Key {
      if MeshGate? then MeshStage.OPERATOR else GitOpsStage.OPERATOR
    }

    /** The objects made behind the gate. */
    predicate Guards(k: Key) {
      !UserSpace(k)
      && match this
         case GitOpsGate => LateGitOps(k)
         case MeshGate => LateMesh(k)
         case ServerGate => k == GitOpsStage.CLUSTER_CONFIG
    }

    predicate MakesGuarded(s: Step) {
      Makes(s).Some? && Guards(Makes(s).value)
    }

    /** The operator's gate has been opened; for the second wait, one ready replica of the server was seen after that.
        */
    ghost predicate Passed(trail: seq<Entry>) {
      if ServerGate? then
        exists n :: 0 <= n < |trail| && trail[n] == Observed(GitOpsStage.SERVER, 1) && Opened(trail[..n], Sub(), Dep())
      else Opened(trail, Sub(), Dep())
    }

    ghost predicate Kept(w: World) {
      forall k :: k in w.store && Guards(k) ==> Passed(w.trail)
    }

    lemma PassedGrows(a: seq<Entry>, b: seq<Entry>)
      requires a <= b && Passed(a)
      ensures Passed(b)
    {
      if ServerGate? {
        var n :| 0 <= n < |a| && a[n] == Observed(GitOpsStage.SERVER, 1) && Opened(a[..n], Sub(), Dep());
        assert b[n] == a[n] && b[..n] == a[..n];
      } else {
        OpenedGrows(a, b, Sub(), Dep());
      }
    }

    lemma NothingNew(w: World, v: World)
      requires Kept(w) && w.trail <= v.trail && forall k :: k in v.store && Guards(k) ==> k in w.store
      ensures Kept(v)
    {
      if Passed(w.trail) {
        PassedGrows(w.trail, v.trail);
      }
    }

    /** A plan that makes no guarded object. */
    lemma PlainRun(p: Plan, w: World)
      requires Kept(w) && Building(p) && forall s :: s in p ==> !MakesGuarded(s)
      ensures Kept(Run(p, 0, w).w)
    {
      var v := Run(p, 0, w).w;
      RunKeeps(p, 0, w);
      RunFollows(p, 0, w);
      forall j | 0 <= j < |p| ensures !MakesGuarded(p[j]) { assert p[j] in p; }
      NothingNew(w, v);
    }

    function Opening(csv: string): Plan {
      [EnsureStep(Sub(), Bare), ApproveStep(Sub(), csv), AwaitStep(Dep())]
    }

    /** An approval without error, then a gate that opens. */
    lemma ThenReady(a: World, b: World)
      requires a.trail <= b.trail && |a.trail| > 0 && a.trail[|a.trail| - 1] == Cleared(Sub()) && SawReady(a, b, Dep())
      ensures Opened(b.trail, Sub(), Dep())
    {
      var i := |a.trail| - 1;
      var j :| |a.trail| <= j < |b.trail| && b.trail[j] == Observed(Dep(), 1);
      assert b.trail[i] == a.trail[i];
    }

    /** A completed opening leaves the evidence in the history. */
    lemma OpeningPasses(csv: string, w: World)
      requires Run(Opening(csv), 0, w).r == Done
      ensures Opened(Run(Opening(csv), 0, w).w.trail, Sub(), Dep())
    {
      hide Run, Approve, Await, EnsureKey, Opened;
      var p := Opening(csv);
      var a := Do(p[0], w);
      RunNext(p, 0, w);
      var b := Do(p[1], a.w);
      RunNext(p, 1, a.w);
      var d := Do(p[2], b.w);
      RunNext(p, 2, b.w);
      RunEnd(p, d.w);
      ApproveClears(a.w, Sub(), csv);
      GateExact(b.w, Dep());
      ThenReady(b.w, d.w);
    }

    /** An opening, then whatever makes the guarded objects. */
    lemma GatedRun(csv: string, rest: Plan, w: World)
      requires Kept(w) && !ServerGate?
      ensures Kept(Run(Opening(csv) + rest, 0, w).w)
    {
      var first := Run(Opening(csv), 0, w);
      RunConcat(Opening(csv), rest, 0, w);
      PlainRun(Opening(csv), w);
      if first.r == Done {
        OpeningPasses(csv, w);
        RunFollows(rest, 0, first.w);
        PassedGrows(first.w.trail, Run(rest, 0, first.w).w.trail);
      }
    }
  }

  lemma OpenedGrows(a: seq<Entry>, b: seq<Entry>, sub: Key, dep: Key)
    requires a <= b && Opened(a, sub, dep)
    ensures Opened(b, sub, dep)
  {
    var i, j :| 0 <= i < j < |a| && a[i] == Cleared(sub) && a[j] == Observed(dep, 1);
    assert b[i] == a[i] && b[j] == a[j];
  }

  lemma ApproveClears(w: World, sub: Key, csv: string)
    requires Approve(w, sub, csv).r == Done
    ensures var v := Approve(w, sub, csv).w;
            |v.trail| > 0 && v.trail[|v.trail| - 1] == Cleared(sub)
  {
    hide DoGet, DoGetPlan, DoApprovePlan;
  }

  /* ---------- The stages ---------- */

  lemma StageSteps(spec: Spec, order: seq<string>, j: nat)
    requires j < |Stages(spec, order)|
    ensures forall s :: s in Stages(spec, order)[j] ==> s in MainPlan(spec, order)
  {
    var ss := Stages(spec, order);
    forall s | s in ss[j] ensures s in MainPlan(spec, order) {
      InFlat(ss, 0, s);
    }
  }

  /** The stages in front of, between and behind the gated ones make no guarded object. */
  lemma OtherStage(g: Gate, spec: Spec, order: seq<string>, j: nat, w: World)
    requires j < |Stages(spec, order)| && j != 5 && j != 7 && g.Kept(w)
    ensures g.Kept(Run(Stages(spec, order)[j], 0, w).w)
  {
    hide MainPlan, Run, FromGitOps, MeshStage.ControlPlan, Gate.Kept;
    var p := Stages(spec, order)[j];
    StageSteps(spec, order, j);
    MainFine(spec, order);
    FineBuilds(p);
    forall s | s in p ensures !g.MakesGuarded(s) {
      UngatedStep(spec, order, j, s);
    }
    g.PlainRun(p, w);
  }

  lemma UngatedStep(spec: Spec, order: seq<string>, j: nat, s: Step)
    requires j < |Stages(spec, order)| && j != 5 && j != 7 && s in Stages(spec, order)[j]
    ensures !Late(s)
  {
    hide PortalStage.RedisPlan, PortalStage.DistributionPlan, ProjectStage.Stage, BookbagStage.Stage,
         NexusStage.AddPlan, GitOpsStage.Stage, VaultStage.ServerPlan, VaultStage.AgentPlan, FromProject,
         FromBookbag, FromNexus, Late;
    if j == 0 { NotLatePortal(spec, order, s); }
    else if j == 1 { InProject(spec, s); NotLateProject(spec, s); }
    else if j == 2 { InBookbag(spec, s); NotLateBookbag(spec, s); }
    else if j == 3 { InNexus(s); NotLateNexus(s); }
    else if j == 9 { NotLateVault(s); }
    else { NotLateForeign(s); }
  }

  lemma NotLateForeign(s: Step)
    requires s.ForeignStep?
    ensures !Late(s)
  {
  }

  lemma GitOpsGated(spec: Spec, w: World)
    requires GitOpsGate.Kept(w)
    ensures GitOpsGate.Kept(Run(GitOpsStage.Stage(spec), 0, w).w)
  {
    hide Run, Gate.Kept, GitOpsStage.Closing, GitOpsStage.Blocks;
    if spec.gitopsEnabled {
      var rest := Flat(GitOpsStage.Blocks(spec), 0) + GitOpsStage.Closing(spec);
      var after := [EnsureStep(Key(Namespace, "", GitOpsStage.ARGOCD), Bare)] + rest;
      assert GitOpsStage.AddPlan(spec) == GitOpsGate.Opening(spec.gitopsCsv) + after;
      GitOpsGate.GatedRun(spec.gitopsCsv, after, w);
    } else {
      UserStage.Nothing(w);
    }
  }

  /** The GitOps stage up to its second wait. */
  function BeforeServer(spec: Spec): Plan {
    GitOpsGate.Opening(spec.gitopsCsv)
    + ([EnsureStep(Key(Namespace, "", GitOpsStage.ARGOCD), Bare)] + Flat(GitOpsStage.Blocks(spec), 0)
       + GitOpsStage.Closing(spec)[..3])
  }

  lemma AroundServer(spec: Spec)
    ensures GitOpsStage.AddPlan(spec) == BeforeServer(spec) + ([AwaitStep(GitOpsStage.SERVER)] + [ConfigStep(spec)])
  {
    hide Flat, GitOpsStage.Blocks, GitOpsStage.Accounts, GitOpsStage.ClusterConfig, GitOpsStage.NamespaceList,
         Policy.PolicyText;
  }

  lemma BeforeServerStep(spec: Spec, s: Step)
    requires s in BeforeServer(spec)
    ensures Makes(s) != Some(GitOpsStage.CLUSTER_CONFIG)
  {
    hide GitOpsStage.Accounts, GitOpsStage.ClusterConfig, GitOpsStage.NamespaceList, Policy.PolicyText;
    var blocks := GitOpsStage.Blocks(spec);
    InFlat(blocks, 0, s);
    if s in Flat(blocks, 0) {
      var j :| 0 <= j < |blocks| && s in blocks[j];
      assert s in GitOpsStage.Block(spec.staging, j + 1);
    }
  }

  /** Up to the second wait the operator's gate is passed, and the cluster configuration is not made. */
  lemma BeforeServerRun(spec: Spec, w: World)
    requires spec.gitopsEnabled && ServerGate.Kept(w)
    ensures var a := Run(BeforeServer(spec), 0, w);
            ServerGate.Kept(a.w) && (a.r == Done ==> Opened(a.w.trail, GitOpsStage.SUBSCRIPTION, GitOpsStage.OPERATOR))
  {
    hide Run, Gate.Kept, Opened, GitOpsStage.Closing, GitOpsStage.Blocks, Flat;
    var p := BeforeServer(spec);
    AroundServer(spec);
    forall s | s in p ensures Fine(s) && !ServerGate.MakesGuarded(s) {
      assert s in GitOpsStage.AddPlan(spec);
      FineStage(spec, s);
      BeforeServerStep(spec, s);
    }
    FineBuilds(p);
    ServerGate.PlainRun(p, w);
    var opening := GitOpsGate.Opening(spec.gitopsCsv);
    var rest := p[|opening|..];
    assert p == opening + rest;
    RunConcat(opening, rest, 0, w);
    var first := Run(opening, 0, w);
    if first.r == Done {
      GitOpsGate.OpeningPasses(spec.gitopsCsv, w);
      RunFollows(rest, 0, first.w);
      OpenedGrows(first.w.trail, Run(rest, 0, first.w).w.trail, GitOpsStage.SUBSCRIPTION, GitOpsStage.OPERATOR);
    }
  }

  lemma FineStage(spec: Spec, s: Step)
    requires spec.gitopsEnabled && s in GitOpsStage.AddPlan(spec)
    ensures Fine(s)
  {
    hide GitOpsStage.AddPlan, FromGitOps, Fine;
    InGitOps(spec, s);
    FineGitOps(spec, s);
  }

  /** One look at the server that succeeds, after the operator's gate has been passed. */
  lemma ServerSeen(a: World, b: World)
    requires a.trail <= b.trail && Opened(a.trail, GitOpsStage.SUBSCRIPTION, GitOpsStage.OPERATOR)
    requires SawReady(a, b, GitOpsStage.SERVER)
    ensures ServerGate.Passed(b.trail)
  {
    var n :| |a.trail| <= n < |b.trail| && b.trail[n] == Observed(GitOpsStage.SERVER, 1);
    OpenedGrows(a.trail, b.trail[..n], GitOpsStage.SUBSCRIPTION, GitOpsStage.OPERATOR);
  }

  /** The GitOps stage makes the cluster configuration only behind its second wait. */
  lemma ServerGated(spec: Spec, w: World)
    requires ServerGate.Kept(w)
    ensures ServerGate.Kept(Run(GitOpsStage.Stage(spec), 0, w).w)
  {
    hide Run, Gate.Kept, Gate.Passed, Opened, GitOpsStage.AddPlan, BeforeServer, Await;
    if spec.gitopsEnabled {
      var wait, last := [AwaitStep(GitOpsStage.SERVER)], [ConfigStep(spec)];
      AroundServer(spec);
      BeforeServerRun(spec, w);
      var a := Run(BeforeServer(spec), 0, w);
      RunConcat(BeforeServer(spec), wait + last, 0, w);
      RunConcat(wait, last, 0, a.w);
      UserStage.OneStep(wait[0], a.w);
      GateExact(a.w, GitOpsStage.SERVER);
      var b := Await(a.w, GitOpsStage.SERVER);
      assert Run(wait, 0, a.w) == b;
      KeptSame(ServerGate, a.w, b.w);
      if a.r == Done && b.r == Done {
        ServerSeen(a.w, b.w);
        RunFollows(last, 0, b.w);
        KeptPassed(ServerGate, b.w, Run(last, 0, b.w).w);
      }
    } else {
      UserStage.Nothing(w);
    }
  }

  lemma KeptSame(g: Gate, w: World, v: World)
    requires g.Kept(w) && v.store == w.store && w.trail <= v.trail
    ensures g.Kept(v)
  {
    g.NothingNew(w, v);
  }

  lemma KeptPassed(g: Gate, w: World, v: World)
    requires g.Passed(w.trail) && w.trail <= v.trail
    ensures g.Kept(v)
  {
    g.PassedGrows(w.trail, v.trail);
  }

  /** The GitOps stage makes none of the mesh's objects. */
  lemma GitOpsUngated(spec: Spec, w: World)
    requires MeshGate.Kept(w)
    ensures MeshGate.Kept(Run(GitOpsStage.Stage(spec), 0, w).w)
  {
    hide GitOpsStage.Stage, Run, FromGitOps, Gate.Kept;
    var p := GitOpsStage.Stage(spec);
    forall s | s in p ensures Fine(s) && !MeshGate.MakesGuarded(s) {
      InGitOps(spec, s);
      FineGitOps(spec, s);
      NotMeshGitOps(spec, s);
    }
    FineBuilds(p);
    MeshGate.PlainRun(p, w);
  }

  lemma MeshGated(spec: Spec, w: World)
    requires MeshGate.Kept(w)
    ensures MeshGate.Kept(Run(MeshStage.Stage(spec), 0, w).w)
  {
    hide Run, Gate.Kept, MeshStage.ElasticPlan, MeshStage.JaegerPlan, MeshStage.KialiPlan, MeshStage.ControlPlan;
    if spec.meshEnabled || spec.serverlessEnabled {
      var front := MeshStage.ElasticPlan(spec) + MeshStage.JaegerPlan(spec) + MeshStage.KialiPlan(spec);
      var back := MeshStage.GatePlan(spec) + MeshStage.ControlPlan(spec);
      assert MeshStage.AddPlan(spec) == front + back;
      RunConcat(front, back, 0, w);
      forall s | s in front ensures Fine(s) && !MeshGate.MakesGuarded(s) { FrontStep(spec, s); }
      FineBuilds(front);
      MeshGate.PlainRun(front, w);
      assert MeshStage.GatePlan(spec) == MeshGate.Opening(spec.meshCsv);
      MeshGate.GatedRun(spec.meshCsv, MeshStage.ControlPlan(spec), Run(front, 0, w).w);
    } else {
      UserStage.Nothing(w);
    }
  }

  lemma FrontStep(spec: Spec, s: Step)
    requires s in MeshStage.ElasticPlan(spec) || s in MeshStage.JaegerPlan(spec) || s in MeshStage.KialiPlan(spec)
    ensures Fine(s) && !MeshGate.MakesGuarded(s)
  {
  }

  /** The service mesh stage makes none of Argo CD's objects. */
  lemma MeshUngated(g: Gate, spec: Spec, w: World)
    requires g != MeshGate && g.Kept(w)
    ensures g.Kept(Run(MeshStage.Stage(spec), 0, w).w)
  {
    hide Run, FromMesh, Gate.Kept, MeshStage.ControlPlan, MeshStage.Stage;
    var p := MeshStage.Stage(spec);
    forall s | s in p ensures Fine(s) && !g.MakesGuarded(s) {
      MeshSteps(spec, s);
      FineMesh(spec, s);
      if s in MeshStage.ControlPlan(spec) { LateControl(spec, s); } else { NotLateMesh(spec, s); }
    }
    FineBuilds(p);
    g.PlainRun(p, w);
  }

  lemma MeshSteps(spec: Spec, s: Step)
    requires s in MeshStage.Stage(spec)
    ensures FromMesh(spec, s)
  {
    hide MeshStage.ElasticPlan, MeshStage.JaegerPlan, MeshStage.KialiPlan, MeshStage.GatePlan, MeshStage.ControlPlan;
  }

  lemma {:induction false} StagesKeep(g: Gate, spec: Spec, order: seq<string>, j: nat, w: World)
    requires j <= |Stages(spec, order)| && g.Kept(w)
    ensures g.Kept(Run(Flat(Stages(spec, order), j), 0, w).w)
    decreases |Stages(spec, order)| - j
  {
    hide Run, Gate.Kept, PortalStage.Stage, ProjectStage.Stage, BookbagStage.Stage, NexusStage.Stage,
         GitOpsStage.Stage, MeshStage.Stage, VaultStage.Stage;
    var ss := Stages(spec, order);
    if j < |ss| {
      StageLemma(ss, j, w);
      if j == 5 {
        match g {
          case GitOpsGate => GitOpsGated(spec, w);
          case MeshGate => GitOpsUngated(spec, w);
          case ServerGate => ServerGated(spec, w);
        }
      } else if j == 7 {
        if g == MeshGate { MeshGated(spec, w); } else { MeshUngated(g, spec, w); }
      } else {
        OtherStage(g, spec, order, j, w);
      }
      StagesKeep(g, spec, order, j + 1, Run(ss[j], 0, w).w);
    } else {
      EndOfStages(ss, w);
    }
  }

  /* ---------- Passes and runs ---------- */

  lemma BuildKeeps(g: Gate, spec: Spec, ch: Choice, w: World)
    requires g.Kept(w)
    ensures g.Kept(Build(spec, ch, w).w)
  {
    hide UserStage.Stage, Run, Flat, Gate.Kept, Stages;
    var u := UserStage.Stage(spec, ch.users, w);
    UserStageFollows(spec, ch.users, w);
    forall k | g.Guards(k) ensures SameAt(w.store, u.w.store, k) {
      UserStageAvoids(spec, ch.users, w, k);
    }
    g.NothingNew(w, u.w);
    if u.r == Done {
      StagesKeep(g, spec, ch.guides, 0, u.w);
    }
  }

  ghost predicate Shrinks(w: World, v: World) {
    forall k :: k in v.store ==> k in w.store
  }

  lemma TakeShrinks(s: Step, w: World)
    requires Taking(s)
    ensures Shrinks(w, Do(s, w).w)
  {
    match s
    case PeekStep(k) => GetFacts(w, k);
    case RemoveStep(k) => DeleteFacts(w, k);
    case DropStep(k) =>
      GetFacts(w, k);
      DeleteFacts(DoGet(w, k).w, k);
    case DropProjects(staging, userId, enabled) => var m, n := DeleteShape(w, staging, userId, enabled, 1);
    case ForeignStep(name) => ReadFacts(w, Watch, Key(Workshop, "", name), Ok);
  }

  lemma {:induction false} RunShrinks(p: Plan, i: nat, w: World)
    requires i <= |p| && AllTaking(p)
    ensures Shrinks(w, Run(p, i, w).w)
    decreases |p| - i
  {
    if i < |p| {
      TakeShrinks(p[i], w);
      RunNext(p, i, w);
      if Do(p[i], w).r == Done {
        hide Do;
        RunShrinks(p, i + 1, Do(p[i], w).w);
      }
    }
  }

  /** The teardown adds nothing to the store. */
  lemma FinalizeShrinks(copy: Resource, ch: Choice, w: World)
    ensures Shrinks(w, Finalize(copy, ch, w).w)
  {
    hide DoList, UserStage.DeletePlan, TearPlan, Run, DoUpdateWorkshop;
    ListKeeps(w);
    DeleteTaking(ch.listed);
    TearTaking(copy.spec);
    RunShrinks(UserStage.DeletePlan(ch.listed), 0, DoList(w).w);
    var u := Run(UserStage.DeletePlan(ch.listed), 0, DoList(w).w);
    RunShrinks(TearPlan(copy.spec), 0, u.w);
    var d := Teardown(copy.spec, ch, w);
    UpdateWorkshopFacts(d.w, copy.(finalizers := Dropped(copy.finalizers)));
  }

  lemma PassKeeps(g: Gate, w: World, ch: Choice)
    requires g.Kept(w)
    ensures g.Kept(Pass(w, ch).w)
  {
    hide Pass, BuildStart, Deletes, Build, Finalize, DoGetWorkshop, Foreign, Gate.Kept;
    PassMonotone(w, ch);
    if BuildStart(w).Some? {
      BuildStartFacts(w, ch);
      var b := BuildStart(w).value;
      g.NothingNew(w, b.1);
      BuildKeeps(g, b.0, ch, b.1);
    } else if Deletes(w) {
      DeletingPass(w, ch);
      FinalizeShrinks(DoGetWorkshop(w).w.cr.value, ch, Foreign(DoGetWorkshop(w).w, "console").w);
      g.NothingNew(w, Pass(w, ch).w);
    } else {
      IdlePass(w, ch);
      g.NothingNew(w, Pass(w, ch).w);
    }
  }

  /** Gate ordering: in every run that starts without them, an object behind a readiness wait exists only if, in this
      or an earlier pass, the approval returned without error and one ready replica of the operator was observed after
      that; the cluster configuration only if one ready replica of the Argo CD server was observed after that as well.
      A pass can be cut short at any call, so this holds between any two calls. */
  lemma {:induction false} BehindTheGate(g: Gate, ws: seq<World>, ts: seq<Turn>, n: nat)
    requires IsRun(ws, ts) && n <= |ts| && forall k :: g.Guards(k) ==> k !in ws[0].store
    ensures forall k :: k in ws[n].store && g.Guards(k) ==> g.Passed(ws[n].trail)
  {
    hide Pass;
    if n > 0 {
      BehindTheGate(g, ws, ts, n - 1);
      assert g.Kept(Begin(ws[n - 1], ts[n - 1]));
      PassKeeps(g, Begin(ws[n - 1], ts[n - 1]), ts[n - 1].ch);
      assert ws[n] == PassOf(ws, ts, n - 1).w;
    }
  }
}
