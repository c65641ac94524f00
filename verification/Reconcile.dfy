/** One pass of the operator: finalizer, user stage, main plan, and the path taken once deletion is marked. */
module Reconcile {
  import opened World
  import opened Cluster
  import opened Steps
  import opened Plans
  import opened Calls
  import Strings = Text
  import UserStage
  import PortalStage
  import ProjectStage
  import BookbagStage
  import NexusStage
  import GitOpsStage
  import MeshStage
  import VaultStage

  /* ---------- The plan behind the user stage ---------- */

  /** The stages in order; order is the iteration order of the guide map in this pass. */
  function Stages(spec: Spec, order: seq<string>): seq<Plan> {
    [PortalStage.Stage(spec, order),
     ProjectStage.Stage(spec),
     BookbagStage.Stage(spec),
     NexusStage.Stage(spec),
     [ForeignStep("gitea"), ForeignStep("pipelines")],
     GitOpsStage.Stage(spec),
     [ForeignStep("codeready")],
     MeshStage.Stage(spec),
     [ForeignStep("serverless")],
     VaultStage.Stage(spec),
     [ForeignStep("certmanager")]]
  }

  function MainPlan(spec: Spec, order: seq<string>): Plan {
    Flat(Stages(spec, order), 0)
  }

  /* ---------- handleDelete ---------- */

  function TearStages(spec: Spec): seq<Plan> {
    [PortalStage.DeletePlan(spec),
     [DropProjects(spec.staging, spec.Seats(), spec.projectEnabled), ForeignStep("bookbag")],
     NexusStage.DeletePlan(),
     [ForeignStep("gitea"), ForeignStep("pipelines"), ForeignStep("gitops"), ForeignStep("codeready"),
      ForeignStep("servicemesh"), ForeignStep("serverless")],
     VaultStage.DeletePlan(),
     [ForeignStep("certmanager")]]
  }

  function TearPlan(spec: Spec): Plan {
    Flat(TearStages(spec), 0)
  }

  /* ---------- The pass ---------- */

  /** What a pass chooses freely: the user stage's choices, the guide order, and the list order of deleteUsers. */
  datatype Choice = Choice(users: UserStage.Choice, guides: seq<string>, listed: seq<string>)

  function Dropped(finalizers: seq<string>): seq<string> {
    if finalizers == [] then []
    else (if finalizers[0] == FINALIZER then [] else [finalizers[0]]) + Dropped(finalizers[1..])
  }

  lemma {:induction false} DroppedGone(finalizers: seq<string>)
    ensures forall f :: f in Dropped(finalizers) <==> f in finalizers && f != FINALIZER
  {
    if finalizers != [] {
      DroppedGone(finalizers[1..]);
    }
  }

  lemma {:induction false} DroppedKeeps(finalizers: seq<string>)
    ensures multiset(Dropped(finalizers)) == multiset(finalizers)[FINALIZER := 0]
  {
    if finalizers != [] {
      assert finalizers == [finalizers[0]] + finalizers[1..];
      DroppedKeeps(finalizers[1..]);
    }
  }

  ghost function Build(spec: Spec, ch: Choice, w: World): Answer {
    var u := UserStage.Stage(spec, ch.users, w);
    if u.r != Done then u else Run(MainPlan(spec, ch.guides), 0, u.w)
  }

  ghost function Teardown(spec: Spec, ch: Choice, w: World): Answer {
    var u := Run(UserStage.DeletePlan(ch.listed), 0, DoList(w).w);
    if u.r != Done then u else Run(TearPlan(spec), 0, u.w)
  }

  /** The result of the teardown decides nothing, unless it never ends. */
  ghost function Finalize(copy: Resource, ch: Choice, w: World): Answer {
    var d := Teardown(copy.spec, ch, w);
    if d.r == Hung then d
    else
      var u := DoUpdateWorkshop(d.w, copy.(finalizers := Dropped(copy.finalizers)));
      Answer(u.w, if u.out == Ok then Done else Failed)
  }

  ghost function Arm(copy: Resource, w: World): Answer {
    if FINALIZER in copy.finalizers then Answer(w, Done)
    else
      var u := DoUpdateWorkshop(w, copy.(finalizers := copy.finalizers + [FINALIZER]));
      Answer(u.w, if u.out == Ok then Done else Failed)
  }

  /** What follows once the Workshop has been read and the console route has been found. */
  ghost function Act(copy: Resource, ch: Choice, w: World): Answer {
    if copy.marked then
      if FINALIZER in copy.finalizers then Finalize(copy, ch, w) else Answer(w, Done)
    else
      var a := Arm(copy, w);
      if a.r != Done then a else Build(copy.spec, ch, a.w)
  }

  ghost function Pass(w: World, ch: Choice): Answer {
    var g := DoGetWorkshop(w);
    if g.out == NotFound then Answer(g.w, Done)
    else if g.out != Ok || g.w.cr.None? then Answer(g.w, Failed)
    else
      var s := Foreign(g.w, "console");
      if s.r != Done then s else Act(g.w.cr.value, ch, s.w)
  }

  /* ---------- What choices are possible ---------- */

  ghost predicate CanBuild(spec: Spec, ch: Choice, w: World) {
    UserStage.Possible(spec, ch.users, w) && Ordering(ch.guides, spec.guides.Keys)
  }

  ghost predicate CanAct(copy: Resource, ch: Choice, w: World) {
    if copy.marked then FINALIZER in copy.finalizers ==> UserStage.Listed(ch.listed, DoList(w))
    else Arm(copy, w).r == Done ==> CanBuild(copy.spec, ch, Arm(copy, w).w)
  }

  ghost predicate Possible(w: World, ch: Choice) {
    var g := DoGetWorkshop(w);
    g.out == Ok && g.w.cr.Some? ==>
      var s := Foreign(g.w, "console");
      s.r == Done ==> CanAct(g.w.cr.value, ch, s.w)
  }

  /* ---------- The methods ---------- */

  lemma StageLemma(stages: seq<Plan>, i: nat, w: World)
    requires i < |stages|
    ensures var a := Run(stages[i], 0, w);
            Run(Flat(stages, i), 0, w) == if a.r == Done then Run(Flat(stages, i + 1), 0, a.w) else a
  {
    RunConcat(stages[i], Flat(stages, i + 1), 0, w);
  }

  method ForeignStages(c: Client, names: seq<string>) returns (r: Result)
    modifies c
    ensures Answer(c.State(), r) == Run(Foreigns(names), 0, old(c.State()))
  {
    hide Do;
    r := Done;
    ghost var p, goal := Foreigns(names), Run(Foreigns(names), 0, c.State());
    for i := 0 to |names|
      invariant r == Done && Run(p, i, c.State()) == goal
    {
      r := CallForeign(c, names[i]);
      if r != Done { return; }
    }
  }

  function Foreigns(names: seq<string>): Plan {
    seq(|names|, i requires 0 <= i < |names| => ForeignStep(names[i]))
  }

  /** The stages behind the user stage, with the guide order of this pass. */
  method BuildMain(c: Client, spec: Spec) returns (r: Result, ghost order: seq<string>)
    modifies c
    ensures Ordering(order, spec.guides.Keys)
    ensures Answer(c.State(), r) == Run(MainPlan(spec, order), 0, old(c.State()))
  {
    hide Do, Run, Flat, PortalStage.Stage, ProjectStage.Stage, BookbagStage.Stage, NexusStage.Stage,
         GitOpsStage.Stage, MeshStage.Stage, VaultStage.Stage;
    ghost var w := c.State();
    r, order := PortalStage.ReconcilePortal(c, spec);
    ghost var ss := Stages(spec, order);
    ghost var goal := Run(Flat(ss, 0), 0, w);
    StageLemma(ss, 0, w);
    if r != Done { return; }
    ghost var rounds;
    StageLemma(ss, 1, c.State());
    r, rounds := ProjectStage.ReconcileProject(c, spec);
    if r != Done { return; }
    StageLemma(ss, 2, c.State());
    r, rounds := BookbagStage.ReconcileBookbag(c, spec);
    if r != Done { return; }
    StageLemma(ss, 3, c.State());
    r := NexusStage.ReconcileNexus(c, spec);
    if r != Done { return; }
    StageLemma(ss, 4, c.State());
    assert ss[4] == Foreigns(["gitea", "pipelines"]);
    r := ForeignStages(c, ["gitea", "pipelines"]);
    if r != Done { return; }
    assert Run(Flat(ss, 5), 0, c.State()) == goal;
    r := BuildRest(c, spec, order);
  }

  method BuildRest(c: Client, spec: Spec, ghost order: seq<string>) returns (r: Result)
    modifies c
    ensures Answer(c.State(), r) == Run(Flat(Stages(spec, order), 5), 0, old(c.State()))
  {
    hide Do, Run, Flat, PortalStage.Stage, ProjectStage.Stage, BookbagStage.Stage, NexusStage.Stage,
         GitOpsStage.Stage, MeshStage.Stage, VaultStage.Stage;
    ghost var ss := Stages(spec, order);
    StageLemma(ss, 5, c.State());
    r := GitOpsStage.ReconcileGitOps(c, spec);
    if r != Done { return; }
    StageLemma(ss, 6, c.State());
    assert ss[6] == Foreigns(["codeready"]);
    r := ForeignStages(c, ["codeready"]);
    if r != Done { return; }
    StageLemma(ss, 7, c.State());
    r := MeshStage.ReconcileServiceMesh(c, spec);
    if r != Done { return; }
    StageLemma(ss, 8, c.State());
    assert ss[8] == Foreigns(["serverless"]);
    r := ForeignStages(c, ["serverless"]);
    if r != Done { return; }
    StageLemma(ss, 9, c.State());
    r := VaultStage.ReconcileVault(c, spec);
    if r != Done { return; }
    StageLemma(ss, 10, c.State());
    assert ss[10] == Foreigns(["certmanager"]);
    r := ForeignStages(c, ["certmanager"]);
    if r != Done { return; }
    EndOfStages(ss, c.State());
  }

  lemma EndOfStages(stages: seq<Plan>, w: World)
    ensures Run(Flat(stages, |stages|), 0, w) == Answer(w, Done)
  {
  }

  method HandleDelete(c: Client, spec: Spec) returns (r: Result, ghost listed: seq<string>)
    modifies c
    ensures UserStage.Listed(listed, DoList(old(c.State())))
    ensures forall users, guides ::
              Answer(c.State(), r) == Teardown(spec, Choice(users, guides, listed), old(c.State()))
  {
    hide Do, Run, Flat, PortalStage.DeletePlan, NexusStage.DeletePlan, VaultStage.DeletePlan, UserStage.DeletePlan;
    r, listed := UserStage.DeleteUsers(c);
    if r != Done { return; }
    ghost var ss, goal := TearStages(spec), Run(TearPlan(spec), 0, c.State());
    StageLemma(ss, 0, c.State());
    r := PortalStage.DeletePortal(c, spec);
    if r != Done { return; }
    StageLemma(ss, 1, c.State());
    r := DeleteProjects(c, spec);
    if r != Done { return; }
    StageLemma(ss, 2, c.State());
    r := NexusStage.DeleteNexus(c);
    if r != Done { return; }
    StageLemma(ss, 3, c.State());
    assert ss[3] == Foreigns(["gitea", "pipelines", "gitops", "codeready", "servicemesh", "serverless"]);
    r := ForeignStages(c, ["gitea", "pipelines", "gitops", "codeready", "servicemesh", "serverless"]);
    if r != Done { return; }
    StageLemma(ss, 4, c.State());
    r := VaultStage.DeleteVault(c);
    if r != Done { return; }
    StageLemma(ss, 5, c.State());
    assert ss[5] == Foreigns(["certmanager"]);
    r := ForeignStages(c, ["certmanager"]);
    if r != Done { return; }
    EndOfStages(ss, c.State());
  }

  method DeleteProjects(c: Client, spec: Spec) returns (r: Result)
    modifies c
    ensures Answer(c.State(), r) ==
            Run([DropProjects(spec.staging, spec.Seats(), spec.projectEnabled), ForeignStep("bookbag")], 0,
                old(c.State()))
  {
    hide Do;
    ghost var p := [DropProjects(spec.staging, spec.Seats(), spec.projectEnabled), ForeignStep("bookbag")];
    ghost var goal := Run(p, 0, c.State());
    r := ProjectStage.DeleteProject(c, spec.staging, spec.Seats(), spec.projectEnabled);
    if r != Done { return; }
    assert goal == Run(p, 1, c.State());
    r := CallForeign(c, "bookbag");
    if r != Done { return; }
    assert goal == Run(p, 2, c.State());
  }

  /** Reconcile. The hashes are those the htpasswd command yields in this pass. */
  method ReconcileWorkshop(c: Client, hash: string -> string) returns (r: Result, ghost ch: Choice)
    modifies c
    ensures ch.users.hash == hash && Possible(old(c.State()), ch)
    ensures Answer(c.State(), r) == Pass(old(c.State()), ch)
  {
    hide Do, Run, Act, CanAct, DoGetWorkshop;
    ch := Choice(UserStage.Choice([], [], [], hash), [], []);
    var out := c.GetWorkshop();
    if out == NotFound {
      return Done, ch;
    }
    if out != Ok || c.cr.None? {
      return Failed, ch;
    }
    var workshop := c.cr.value;
    r := CallConsole(c);
    if r != Done { return; }
    r, ch := ActOn(c, workshop, hash);
  }

  method CallConsole(c: Client) returns (r: Result)
    modifies c
    ensures Answer(c.State(), r) == Foreign(old(c.State()), "console")
  {
    r := CallForeign(c, "console");
  }

  method ActOn(c: Client, workshop: Resource, hash: string -> string) returns (r: Result, ghost ch: Choice)
    modifies c
    ensures ch.users.hash == hash && CanAct(workshop, ch, old(c.State()))
    ensures Answer(c.State(), r) == Act(workshop, ch, old(c.State()))
  {
    hide Do, Run, Build, CanBuild, Teardown, DoUpdateWorkshop, DoList, UserStage.Listed;
    ch := Choice(UserStage.Choice([], [], [], hash), [], []);
    var present := Strings.Contains(workshop.finalizers, FINALIZER);
    if workshop.marked {
      r := Done;
      if present {
        ghost var listed;
        r, listed := HandleDelete(c, workshop.spec);
        ch := ch.(listed := listed);
        if r == Hung { return; }
        var out := c.UpdateWorkshop(workshop.(finalizers := Dropped(workshop.finalizers)));
        r := if out == Ok then Done else Failed;
      }
      return;
    }
    if !present {
      r := AddFinalizer(c, workshop);
      if r != Done { return; }
    }
    r, ch := BuildAll(c, workshop.spec, hash);
  }

  method AddFinalizer(c: Client, workshop: Resource) returns (r: Result)
    requires FINALIZER !in workshop.finalizers
    modifies c
    ensures Answer(c.State(), r) == Arm(workshop, old(c.State()))
  {
    var out := c.UpdateWorkshop(workshop.(finalizers := workshop.finalizers + [FINALIZER]));
    r := if out == Ok then Done else Failed;
  }

  method BuildAll(c: Client, spec: Spec, hash: string -> string) returns (r: Result, ghost ch: Choice)
    modifies c
    ensures ch.users.hash == hash && CanBuild(spec, ch, old(c.State()))
    ensures Answer(c.State(), r) == Build(spec, ch, old(c.State()))
  {
    hide Do, Run, UserStage.Stage, UserStage.Possible, MainPlan;
    ghost var users;
    r, users := UserStage.ReconcileUser(c, spec, hash);
    ghost var some := SomeOrder(spec.guides.Keys);
    ch := Choice(users, some, []);
    if r != Done { return; }
    ghost var order;
    r, order := BuildMain(c, spec);
    ch := Choice(users, order, []);
  }
}
