/** Whole runs: any number of passes, each with its own finite script of faults and interference. */
module Runs {
  import opened World
  import opened Steps
  import opened Gates
  import opened Plans
  import opened Frame
  import opened Accounts
  import opened Reconcile
  import opened Finalizer
  import opened MainFacts
  import Htpasswd
  import UserStage
  import GitOpsStage
  import MeshStage

  /** One pass: what happens around its calls, and its free choices. */
  datatype Turn = Turn(script: seq<Tick>, ch: Choice)

  ghost function Begin(w: World, t: Turn): World {
    w.(script := t.script)
  }

  ghost function PassOf(ws: seq<World>, ts: seq<Turn>, i: nat): Answer
    requires i < |ws| && i < |ts|
  {
    Pass(Begin(ws[i], ts[i]), ts[i].ch)
  }

  /** ws[i] is the world before the i-th pass, and the last one is the world after all of them. */
  ghost predicate IsRun(ws: seq<World>, ts: seq<Turn>) {
    && |ws| == |ts| + 1
    && forall i :: 0 <= i < |ts| ==> Possible(Begin(ws[i], ts[i]), ts[i].ch) && ws[i + 1] == PassOf(ws, ts, i).w
  }

  /* ---------- A pass that builds ---------- */

  /** The spec a pass works from and the world in which its user stage starts, if it gets that far. */
  ghost function BuildStart(w: World): Option<(Spec, World)> {
    var g := DoGetWorkshop(w);
    if g.out != Ok || g.w.cr.None? then None
    else
      var s := Foreign(g.w, "console");
      if s.r != Done || g.w.cr.value.marked then None
      else
        var a := Arm(g.w.cr.value, s.w);
        if a.r != Done then None else Some((g.w.cr.value.spec, a.w))
  }

  lemma ArmFacts(copy: Resource, w: World)
    ensures var a := Arm(copy, w);
            Monotone(w, a.w) && NoCreates(w, a.w) && a.w.store == w.store && (Calm(w) ==> Calm(a.w))
  {
    hide DoUpdateWorkshop;
    var next := copy.(finalizers := copy.finalizers + [FINALIZER]);
    UpdateWorkshopFacts(w, next);
    if Calm(w) { UpdateWorkshopCalm(w, next); }
  }

  lemma UpdateWorkshopCalm(w: World, copy: Resource)
    requires Calm(w)
    ensures Calm(DoUpdateWorkshop(w, copy).w)
  {
    var v := Pop(w);
    SettleCalm(w, v, Verb.Update, WORKSHOP, NotFound);
    SettleCalm(w, v, Verb.Update, WORKSHOP, OtherError);
    if v.cr.Some? {
      var stored := v.cr.value.(finalizers := copy.finalizers, version := copy.version + 1);
      SettleCalm(w, v.(cr := if stored.marked && stored.finalizers == [] then None else Some(stored)), Verb.Update,
          WORKSHOP, Ok);
    }
    hide Pop, Next, Settle;
  }

  lemma OpeningCalm(w: World)
    requires Calm(w)
    ensures Calm(DoGetWorkshop(w).w) && Calm(Foreign(DoGetWorkshop(w).w, "console").w)
  {
    var g := DoGetWorkshop(w);
    SettleCalm(w, Pop(w), Verb.Get, WORKSHOP, if Pop(w).cr.Some? then Ok else NotFound);
    SettleCalm(g.w, Pop(g.w), Verb.Watch, Key(Workshop, "", "console"), Ok);
  }

  lemma MonotoneTrans(u: World, v: World, w: World)
    requires Monotone(u, v) && Monotone(v, w)
    ensures Monotone(u, w)
  {
  }

  lemma BuildStartFacts(w: World, ch: Choice)
    requires BuildStart(w).Some?
    ensures var b := BuildStart(w).value;
            && Pass(w, ch) == Build(b.0, ch, b.1)
            && b.1.store == w.store && Monotone(w, b.1)
            && (Calm(w) ==> Calm(b.1))
            && (Possible(w, ch) ==> CanBuild(b.0, ch, b.1))
  {
    hide DoGetWorkshop, Foreign, Build, CanBuild, Arm;
    var g := DoGetWorkshop(w);
    var s := Foreign(g.w, "console");
    OpeningFacts(w);
    if Calm(w) { OpeningCalm(w); }
    ArmFacts(g.w.cr.value, s.w);
    MonotoneTrans(w, s.w, Arm(g.w.cr.value, s.w).w);
  }

  /** A pass that neither builds nor deletes leaves the store alone. */
  lemma IdlePass(w: World, ch: Choice)
    requires BuildStart(w).None? && !Deletes(w)
    ensures Pass(w, ch).w.store == w.store && Monotone(w, Pass(w, ch).w)
  {
    hide DoGetWorkshop, Foreign, Build, Finalize, Arm;
    var g := DoGetWorkshop(w);
    var s := Foreign(g.w, "console");
    OpeningFacts(w);
    if g.out == Ok && g.w.cr.Some? && s.r == Done && !g.w.cr.value.marked {
      ArmFacts(g.w.cr.value, s.w);
      MonotoneTrans(w, s.w, Arm(g.w.cr.value, s.w).w);
    }
  }

  lemma DeletingPass(w: World, ch: Choice)
    requires Deletes(w)
    ensures DoGetWorkshop(w).w.cr.Some?
    ensures var g := DoGetWorkshop(w); var s := Foreign(g.w, "console");
            Pass(w, ch) == Finalize(g.w.cr.value, ch, s.w) && s.w.store == w.store && Monotone(w, Pass(w, ch).w)
  {
    hide DoGetWorkshop, Foreign, Build, Finalize;
    var g := DoGetWorkshop(w);
    var s := Foreign(g.w, "console");
    OpeningFacts(w);
    FinalizeFacts(g.w.cr.value, ch, s.w);
    MonotoneTrans(w, s.w, Pass(w, ch).w);
  }

  /** History only grows, and an approved install plan stays approved. */
  lemma PassMonotone(w: World, ch: Choice)
    ensures Monotone(w, Pass(w, ch).w)
  {
    hide Pass, BuildStart, Deletes, Build;
    if BuildStart(w).Some? {
      BuildStartFacts(w, ch);
      var b := BuildStart(w).value;
      BuildFollows(b.0, ch, b.1);
      MonotoneTrans(w, b.1, Build(b.0, ch, b.1).w);
    } else if Deletes(w) {
      DeletingPass(w, ch);
    } else {
      IdlePass(w, ch);
    }
  }

  lemma {:induction false} RunMonotone(ws: seq<World>, ts: seq<Turn>, i: nat, j: nat)
    requires IsRun(ws, ts) && i <= j <= |ts|
    ensures Monotone(ws[i], ws[j])
    decreases j - i
  {
    if i < j {
      RunMonotone(ws, ts, i, j - 1);
      PassMonotone(Begin(ws[j - 1], ts[j - 1]), ts[j - 1].ch);
      assert ws[j] == PassOf(ws, ts, j - 1).w;
      MonotoneTrans(ws[i], ws[j - 1], ws[j]);
    }
  }

  /* ---------- The finalizer over runs ---------- */

  /** In every run that starts without history, every create ever made was made under the finalizer. */
  lemma {:induction false} CreatesUnderFinalizer(ws: seq<World>, ts: seq<Turn>, n: nat)
    requires IsRun(ws, ts) && n <= |ts| && ws[0].trail == []
    ensures forall i :: 0 <= i < |ws[n].trail| && ws[n].trail[i].Called? && ws[n].trail[i].verb == Create
              ==> ws[n].trail[i].armed
  {
    if n > 0 {
      CreatesUnderFinalizer(ws, ts, n - 1);
      PassCreatesArmed(Begin(ws[n - 1], ts[n - 1]), ts[n - 1].ch);
      assert ws[n] == PassOf(ws, ts, n - 1).w;
      assert CreatesArmed(ws[n - 1], ws[n]);
    }
  }

  /** Whenever the finalizer disappears in a run, the pass in which it does had read the mark. */
  lemma {:induction false} FinalizerGoesOnceMarked(ws: seq<World>, ts: seq<Turn>, n: nat) returns (i: nat)
    requires IsRun(ws, ts) && n <= |ts| && Armed(ws[0]) && !Armed(ws[n])
    ensures i < n && Armed(ws[i]) && !Armed(ws[i + 1]) && Deletes(Begin(ws[i], ts[i]))
  {
    if Armed(ws[n - 1]) {
      i := n - 1;
      assert ws[n] == PassOf(ws, ts, n - 1).w;
      RemovedOnlyAfterMark(Begin(ws[i], ts[i]), ts[i].ch);
    } else {
      i := FinalizerGoesOnceMarked(ws, ts, n - 1);
    }
  }

  /** From the mark on nothing is created any more, and a finalizer that is gone does not come back. */
  lemma {:induction false} AfterTheMark(ws: seq<World>, ts: seq<Turn>, n: nat)
    requires IsRun(ws, ts) && n <= |ts| && (ws[0].cr.None? || ws[0].cr.value.marked)
    ensures (ws[n].cr.None? || ws[n].cr.value.marked) && NoCreates(ws[0], ws[n]) && (Armed(ws[n]) ==> Armed(ws[0]))
  {
    if n > 0 {
      AfterTheMark(ws, ts, n - 1);
      MarkStays(Begin(ws[n - 1], ts[n - 1]), ts[n - 1].ch);
      assert ws[n] == PassOf(ws, ts, n - 1).w;
      assert NoCreates(ws[n - 1], ws[n]);
    }
  }

  /** Over every run, the Workshop keeps exactly the finalizers that are not the operator's. */
  lemma {:induction false} OthersOverRuns(ws: seq<World>, ts: seq<Turn>, n: nat)
    requires IsRun(ws, ts) && n <= |ts|
    ensures OthersKept(ws[0].cr, ws[n].cr)
  {
    hide Pass, OthersKept, Reconcile.Possible;
    if n > 0 {
      OthersOverRuns(ws, ts, n - 1);
      PassKeepsOthers(Begin(ws[n - 1], ts[n - 1]), ts[n - 1].ch);
      assert ws[n] == PassOf(ws, ts, n - 1).w;
      OthersThen(ws[0].cr, ws[n - 1].cr, ws[n].cr);
    } else {
      SelfOthers(ws[0].cr);
    }
  }

  /** A pass that builds works under the finalizers that were there, and the operator's own behind them if it was
      missing. */
  lemma BuildsArmed(w: World, ch: Choice)
    requires BuildStart(w).Some? && Pass(w, ch).w.cr.Some?
    ensures w.cr.Some?
    ensures var before, after := w.cr.value.finalizers, Pass(w, ch).w.cr.value.finalizers;
            after == if FINALIZER in before then before else before + [FINALIZER]
  {
    hide DoGetWorkshop, Foreign, Build, DoUpdateWorkshop, Follows;
    var g := DoGetWorkshop(w);
    var s := Foreign(g.w, "console");
    OpeningFacts(w);
    var copy := g.w.cr.value;
    var a := Arm(copy, s.w);
    UpdateWorkshopFacts(s.w, copy.(finalizers := copy.finalizers + [FINALIZER]));
    BuildCr(copy.spec, ch, a.w);
  }

  /* ---------- Approval safety over runs ---------- */

  /** The versions a spec pins, by subscription. */
  function Pins(spec: Spec): set<(Key, string)> {
    {(GitOpsStage.SUBSCRIPTION, spec.gitopsCsv), (MeshStage.Elastic(spec), spec.elasticCsv),
     (MeshStage.JAEGER, spec.jaegerCsv), (MeshStage.KIALI, spec.kialiCsv), (MeshStage.MESH, spec.meshCsv)}
  }

  lemma ApprovesPinned(spec: Spec, order: seq<string>, s: Step)
    requires s in MainPlan(spec, order) && s.ApproveStep?
    ensures (s.sub, s.csv) in Pins(spec)
  {
    hide MainPlan, FromPortal, FromProject, FromBookbag, FromGitOps, FromMesh, FromNexus, FromVault, Pins;
    InMain(spec, order, s);
    NoApprovals(spec, order, s);
    if FromGitOps(spec, s) { GitOpsApproves(spec, s); } else { MeshApproves(spec, s); }
  }

  lemma NoApprovals(spec: Spec, order: seq<string>, s: Step)
    requires s.ApproveStep?
    ensures !FromPortal(spec, order, s) && !FromProject(spec, s) && !FromBookbag(spec, s) && !FromNexus(s)
        && !FromVault(s)
  {
    hide FromPortal, FromProject, FromBookbag, FromNexus, FromVault;
    assert !FromPortal(spec, order, s) && !FromNexus(s) by { NoListedApprovals(spec, order, s); }
    assert !FromVault(s) by { NoVaultApprovals(s); }
    assert !FromProject(spec, s) && !FromBookbag(spec, s) by { NoUserApprovals(spec, s); }
  }

  lemma NoListedApprovals(spec: Spec, order: seq<string>, s: Step)
    requires s.ApproveStep?
    ensures !FromPortal(spec, order, s) && !FromNexus(s)
  {
  }

  lemma NoVaultApprovals(s: Step)
    requires s.ApproveStep?
    ensures !FromVault(s)
  {
  }

  lemma NoUserApprovals(spec: Spec, s: Step)
    requires s.ApproveStep?
    ensures !FromProject(spec, s) && !FromBookbag(spec, s)
  {
  }

  lemma GitOpsApproves(spec: Spec, s: Step)
    requires FromGitOps(spec, s) && s.ApproveStep?
    ensures (s.sub, s.csv) in Pins(spec)
  {
    hide GitOpsStage.NamespaceList, GitOpsStage.Accounts, GitOpsStage.ClusterConfig, MeshStage.Elastic;
    assert s == ApproveStep(GitOpsStage.SUBSCRIPTION, spec.gitopsCsv);
  }

  lemma MeshApproves(spec: Spec, s: Step)
    requires FromMesh(spec, s) && s.ApproveStep?
    ensures (s.sub, s.csv) in Pins(spec)
  {
    hide MeshStage.Subjects, GitOpsStage.ProjectNames, MeshStage.Elastic;
  }

  lemma MainPinned(spec: Spec, order: seq<string>, pins: set<(Key, string)>)
    requires Pins(spec) <= pins
    ensures Pinned(MainPlan(spec, order), pins)
  {
    hide MainPlan, Pins;
    var p := MainPlan(spec, order);
    forall i | 0 <= i < |p| && p[i].ApproveStep? ensures (p[i].sub, p[i].csv) in pins {
      ApprovesPinned(spec, order, p[i]);
    }
  }

  lemma UserStageTame(spec: Spec, ch: UserStage.Choice, w: World)
    ensures Tame(w, UserStage.Stage(spec, ch, w).w)
  {
    hide DoList, Run;
    var p := UserStage.UserPlan(spec, ch);
    ListKeeps(w);
    NoGates(spec, ch);
    RunTame(p, 0, DoList(w).w);
    TameTrans(w, DoList(w).w, Run(p, 0, DoList(w).w).w);
  }

  lemma NoGates(spec: Spec, ch: UserStage.Choice)
    ensures var p := UserStage.UserPlan(spec, ch);
            forall j :: 0 <= j < |p| ==> !p[j].ApproveStep? && !p[j].AwaitStep?
  {
    var p := UserStage.UserPlan(spec, ch);
    forall j | 0 <= j < |p| ensures !p[j].ApproveStep? && !p[j].AwaitStep? {
      assert p[j] in p;
      UserPlanKinds(spec, ch, p[j]);
    }
  }

  predicate UserKind(s: Step) {
    s.EnsureStep? || s.PeekStep? || s.RemoveStep? || s.SecretFile?
  }

  lemma UserBlockKinds(name: string, s: Step)
    requires s in UserStage.RemoveBlock(name) || s in UserStage.AddBlock(name)
    ensures UserKind(s)
  {
  }

  lemma UserPlanKinds(spec: Spec, ch: UserStage.Choice, s: Step)
    requires s in UserStage.UserPlan(spec, ch)
    ensures UserKind(s)
  {
    hide UserStage.RemoveBlock, UserStage.AddBlock, UserKind;
    var rem, add := UserStage.Removals(ch.items, Htpasswd.Wanted(spec.prefix, spec.users)),
        UserStage.Additions(ch.order, ch.items);
    InFlat(rem, 0, s);
    InFlat(add, 0, s);
    if s in Flat(rem, 0) {
      var j :| 0 <= j < |rem| && s in rem[j];
      UserBlockKinds(ch.items[j], s);
    } else if s in Flat(add, 0) {
      var j :| 0 <= j < |add| && s in add[j];
      UserBlockKinds(ch.order[j], s);
    } else {
      var last := SecretFile(Htpasswd.File(ch.lines, ch.hash), spec.users, spec.prefix);
      assert s == last;
      assert UserKind(last) by { LastKind(last); }
    }
  }

  lemma LastKind(s: Step)
    requires s.SecretFile?
    ensures UserKind(s)
  {
  }

  /** A change of the Workshop is no approval. */
  lemma UpdateWorkshopJustified(w: World, copy: Resource, pins: set<(Key, string)>)
    requires Justified(w, pins)
    ensures Justified(DoUpdateWorkshop(w, copy).w, pins)
  {
    PopFacts(w);
    OrdinaryJustified(w, Pop(w), pins);
    hide Justified, Ordinary, Logged;
    UpdateWorkshopLog(w, copy);
    CalledJustified(Pop(w), DoUpdateWorkshop(w, copy).w, pins);
  }

  /** After the call the history has one more entry, and plans and subscriptions are what they were. */
  ghost predicate Logged(v: World, u: World) {
    && u.plans == v.plans && u.subs == v.subs
    && |u.trail| == |v.trail| + 1 && u.trail[..|v.trail|] == v.trail && u.trail[|v.trail|].Called?
  }

  lemma SettleLogged(v: World, cr: Option<Resource>, out: Outcome, fault: Fault)
    ensures Logged(v, Settle(v, v.(cr := cr), Update, WORKSHOP, out, fault).w)
  {
    var u := Settle(v, v.(cr := cr), Update, WORKSHOP, out, fault);
    assert u.w.trail == v.trail + [Called(Update, WORKSHOP, u.out, Armed(u.w))];
  }

  lemma UpdateWorkshopLog(w: World, copy: Resource)
    ensures Logged(Pop(w), DoUpdateWorkshop(w, copy).w)
  {
    var v := Pop(w);
    assert v.(cr := v.cr) == v;
    SettleLogged(v, v.cr, NotFound, Next(w).fault);
    SettleLogged(v, v.cr, OtherError, Next(w).fault);
    if v.cr.Some? {
      var stored := v.cr.value.(finalizers := copy.finalizers, version := copy.version + 1);
      SettleLogged(v, if stored.marked && stored.finalizers == [] then None else Some(stored), Ok, Next(w).fault);
    }
    hide Pop, Settle, Logged;
  }

  lemma CalledJustified(v: World, u: World, pins: set<(Key, string)>)
    requires Justified(v, pins) && Logged(v, u)
    ensures Justified(u, pins)
  {
    forall i | 0 <= i < |u.trail| && u.trail[i].Approval?
      ensures var e := u.trail[i];
              (e.sub, e.csv) in pins && Referred(e.sub, e.plan) in u.trail[..i] && e.plan in u.plans
                  && e.csv in u.plans[e.plan].csvs
    {
      assert u.trail[i] == v.trail[i] && u.trail[..i] == v.trail[..i];
    }
    forall p | p in u.plans && u.plans[p].approved
      ensures exists i :: 0 <= i < |u.trail| && u.trail[i].Approval? && u.trail[i].plan == p
    {
      var i :| 0 <= i < |v.trail| && v.trail[i].Approval? && v.trail[i].plan == p;
      assert u.trail[i] == v.trail[i];
    }
    forall s | s in u.subs && u.subs[s].ref.Some? ensures Referred(s, PlanKey(s.ns, u.subs[s].ref.value)) in u.trail {
      assert Referred(s, PlanKey(s.ns, u.subs[s].ref.value)) in v.trail;
    }
  }

  lemma BuildJustified(spec: Spec, ch: Choice, w: World, pins: set<(Key, string)>)
    requires Justified(w, pins) && Pins(spec) <= pins
    ensures Justified(Build(spec, ch, w).w, pins)
  {
    hide UserStage.Stage, MainPlan, Run, Pins;
    var u := UserStage.Stage(spec, ch.users, w);
    UserStageTame(spec, ch.users, w);
    OrdinaryJustified(w, u.w, pins);
    if u.r == Done {
      MainPinned(spec, ch.guides, pins);
      RunJustified(MainPlan(spec, ch.guides), 0, u.w, pins);
    }
  }

  lemma TakingOrdinary(p: Plan, w: World)
    requires AllTaking(p)
    ensures Ordinary(w, Run(p, 0, w).w)
  {
    RunOrdinary(p, 0, w);
  }

  lemma FinalizeJustified(copy: Resource, ch: Choice, w: World, pins: set<(Key, string)>)
    requires Justified(w, pins)
    ensures Justified(Finalize(copy, ch, w).w, pins)
  {
    hide DoList, UserStage.DeletePlan, TearPlan, Run, DoUpdateWorkshop;
    var l := DoList(w).w;
    ListKeeps(w);
    OrdinaryJustified(w, l, pins);
    var u := Run(UserStage.DeletePlan(ch.listed), 0, l);
    DeleteTaking(ch.listed);
    TakingOrdinary(UserStage.DeletePlan(ch.listed), l);
    OrdinaryJustified(l, u.w, pins);
    TearTaking(copy.spec);
    TakingOrdinary(TearPlan(copy.spec), u.w);
    OrdinaryJustified(u.w, Run(TearPlan(copy.spec), 0, u.w).w, pins);
    var d := Teardown(copy.spec, ch, w);
    UpdateWorkshopJustified(d.w, copy.(finalizers := Dropped(copy.finalizers)), pins);
  }

  /** A pass whose spec pins no other versions keeps every approval justified. */
  lemma PassJustified(w: World, ch: Choice, pins: set<(Key, string)>)
    requires Justified(w, pins) && (BuildStart(w).Some? ==> Pins(BuildStart(w).value.0) <= pins)
    ensures Justified(Pass(w, ch).w, pins)
  {
    hide DoGetWorkshop, Foreign, Build, Finalize, DoUpdateWorkshop, Pins;
    var g := DoGetWorkshop(w);
    var s := Foreign(g.w, "console");
    OpeningFacts(w);
    OrdinaryJustified(w, g.w, pins);
    OrdinaryJustified(w, s.w, pins);
    if g.out == Ok && g.w.cr.Some? && s.r == Done {
      var copy := g.w.cr.value;
      FinalizeJustified(copy, ch, s.w, pins);
      var a := Arm(copy, s.w);
      UpdateWorkshopJustified(s.w, copy.(finalizers := copy.finalizers + [FINALIZER]), pins);
      if !copy.marked && a.r == Done {
        BuildJustified(copy.spec, ch, a.w, pins);
      }
    }
  }

  /** Approval safety over runs: with OLM creating plans, moving references and installing between any two calls,
      every approved plan was approved for a pinned version it lists, after a pinned subscription had referenced it;
      if no plan lists an empty version, that version is not empty. */
  lemma {:induction false} ApprovalsJustified(ws: seq<World>, ts: seq<Turn>, n: nat, pins: set<(Key, string)>)
    requires IsRun(ws, ts) && n <= |ts| && Justified(ws[0], pins)
    requires forall i :: 0 <= i < n && BuildStart(Begin(ws[i], ts[i])).Some? ==>
               Pins(BuildStart(Begin(ws[i], ts[i])).value.0) <= pins
    ensures Justified(ws[n], pins)
    ensures (forall p :: p in ws[n].plans ==> "" !in ws[n].plans[p].csvs) ==>
              forall i :: 0 <= i < |ws[n].trail| && ws[n].trail[i].Approval? ==> ws[n].trail[i].csv != ""
  {
    hide BuildStart, Pins, Pass;
    if n > 0 {
      ApprovalsJustified(ws, ts, n - 1, pins);
      BeginJustified(ws[n - 1], ts[n - 1], pins);
      PassJustified(Begin(ws[n - 1], ts[n - 1]), ts[n - 1].ch, pins);
      assert ws[n] == PassOf(ws, ts, n - 1).w;
    }
  }

  lemma BeginJustified(w: World, t: Turn, pins: set<(Key, string)>)
    requires Justified(w, pins)
    ensures Justified(Begin(w, t), pins)
  {
  }
}
