/** The project stage: one namespace with three role bindings per user, and the unbounded scan behind them. */
module ProjectStage {
  import opened World
  import opened Cluster
  import opened Steps
  import opened Scans
  import opened Plans
  import opened Calls
  import opened Progress
  import opened ScanLoop
  import opened Strings = Text

  const ARGOCD_CONTROLLER := "system:serviceaccount:argocd:argocd-argocd-application-controller"

  function Username(id: nat): string {
    "user" + Dec(id)
  }

  function Project(spec: Spec, id: nat): string {
    spec.staging + Dec(id)
  }

  function Space(spec: Spec, id: nat): Key {
    Key(Namespace, "", Project(spec, id))
  }

  /** addProject and manageRoles for one user. */
  function Block(spec: Spec, id: nat): Plan {
    [EnsureStep(Space(spec, id), Bare),
     EnsureStep(Key(RoleBinding, Project(spec, id), Username(id) + "-project"), Names([Username(id)])),
     EnsureStep(Key(RoleBinding, Project(spec, id), Username(id) + "-default"), Names(["default"])),
     EnsureStep(Key(RoleBinding, Project(spec, id), Username(id) + "-argocd"), Names([ARGOCD_CONTROLLER]))]
  }

  function Blocks(spec: Spec): seq<Plan> {
    if spec.projectEnabled && spec.staging != ""
    then seq(spec.Seats(), i requires 0 <= i < spec.Seats() => Block(spec, i + 1))
    else []
  }

  /** The first id the stage only looks for. */
  function ScanStart(spec: Spec): nat {
    if spec.projectEnabled then spec.Seats() + 1 else 1
  }

  function TheLoop(spec: Spec): Loop {
    Loop(Blocks(spec), ScanStart(spec), Namespace, "", spec.staging)
  }

  function Stage(spec: Spec): Plan {
    TheLoop(spec).Plan()
  }

  /** No block makes a project numbered beyond the users. */
  lemma LoopValid(spec: Spec)
    ensures TheLoop(spec).Valid()
  {
    var loop := TheLoop(spec);
    forall b, i | 0 <= b < |loop.blocks| && 0 <= i < |loop.blocks[b]| ensures loop.Harmless(loop.blocks[b][i]) {
      forall j: nat | loop.start <= j
        ensures Makes(loop.blocks[b][i]) != Some(Numbered(Namespace, "", spec.staging, j))
      {
        NumberedInjective(spec.staging, b + 1, j);
      }
    }
  }

  method AddProject(c: Client, spec: Spec, id: nat) returns (r: Result)
    modifies c
    ensures Answer(c.State(), r) == Run(Block(spec, id), 0, old(c.State()))
  {
    hide Do;
    ghost var p, goal := Block(spec, id), Run(Block(spec, id), 0, c.State());
    var project, user := Project(spec, id), Username(id);
    r := Ensure(c, Key(Namespace, "", project), Bare);
    if r != Done { return; }
    assert goal == Run(p, 1, c.State());
    r := Ensure(c, Key(RoleBinding, project, user + "-project"), Names([user]));
    if r != Done { return; }
    assert goal == Run(p, 2, c.State());
    r := Ensure(c, Key(RoleBinding, project, user + "-default"), Names(["default"]));
    if r != Done { return; }
    assert goal == Run(p, 3, c.State());
    r := Ensure(c, Key(RoleBinding, project, user + "-argocd"), Names([ARGOCD_CONTROLLER]));
  }

  /** The loop ends after at most one round per user, per stored name ahead, per failing call, and one more; a normal
      end has run the whole plan. */
  method ReconcileProject(c: Client, spec: Spec) returns (r: Result, ghost rounds: nat)
    modifies c
    ensures Answer(c.State(), r) == Run(Stage(spec), 0, old(c.State()))
    ensures rounds <= spec.Seats() + |Remaining(old(c.store), Namespace, "", spec.staging, ScanStart(spec))|
                      + Faulty(old(c.script)) + 1
  {
    hide Do, DoGet, Run, ScanFrom, Flat, Loop.Budget, Loop.Rest, Loop.Plan, Loop.Valid;
    ghost var loop := TheLoop(spec);
    ghost var goal, budget := Run(Stage(spec), 0, c.State()), loop.Budget(1, c.State());
    StartBudget(spec, c.State());
    LoopValid(spec);
    loop.RestStart(c.State());
    var users := spec.Seats();
    var id := 1;
    rounds := 0;
    r := Done;
    while true
      invariant id >= 1 && r == Done
      invariant loop.Rest(id, c.State()) == goal
      invariant rounds + loop.Budget(id, c.State()) <= budget
      decreases loop.Budget(id, c.State())
    {
      rounds := rounds + 1;
      if id <= users && spec.projectEnabled {
        if spec.staging != "" {
          loop.AddRound(id, c.State());
          r := AddProject(c, spec, id);
          if r != Done { return; }
        } else {
          loop.SkipRound(id, c.State());
        }
      } else {
        loop.ScanRound(id, c.State());
        var out := c.Get(Key(Namespace, "", Project(spec, id)));
        if out == NotFound {
          break;
        }
      }
      id := id + 1;
    }
  }

  lemma StartBudget(spec: Spec, w: World)
    ensures TheLoop(spec).Budget(1, w) <=
            spec.Seats() + |Remaining(w.store, Namespace, "", spec.staging, ScanStart(spec))| + Faulty(w.script)
  {
  }

  lemma StageBuilds(spec: Spec)
    ensures Building(Stage(spec)) && forall s :: s in Stage(spec) ==> !s.SyncStep?
  {
    hide Blocks, Loop.Plan;
    forall s | s in Stage(spec) ensures Builder(s) && !s.SyncStep? {
      TheLoop(spec).InPlan(s);
      if s != TheLoop(spec).Scan() {
        var b :| b in Blocks(spec) && s in b;
        BlockEnsures(spec, b, s);
      }
    }
    forall i | 0 <= i < |Stage(spec)| ensures Builder(Stage(spec)[i]) { assert Stage(spec)[i] in Stage(spec); }
  }

  lemma BlockEnsures(spec: Spec, b: Plan, s: Step)
    requires b in Blocks(spec) && s in b
    ensures s.EnsureStep?
  {
  }

  /** The stage removes and changes nothing, under any faults; and when it ends normally with projects enabled and a
      staging name, every object of every user 1 .. n is there. */
  lemma EveryUserServed(spec: Spec, w: World)
    ensures var v := Run(Stage(spec), 0, w).w;
            forall k :: k in w.store ==> k in v.store && v.store[k] == w.store[k]
    ensures Run(Stage(spec), 0, w).r == Done && spec.projectEnabled && spec.staging != "" ==>
              forall id: nat, s :: 1 <= id <= spec.Seats() && s in Block(spec, id) ==>
                Makes(s).Some? && Makes(s).value in Run(Stage(spec), 0, w).w.store
  {
    hide Run, Block, Loop.Plan;
    var p := Stage(spec);
    StageBuilds(spec);
    forall j | 0 <= j < |p| ensures !p[j].SyncStep? { assert p[j] in p; }
    RunKeeps(p, 0, w);
    if Run(p, 0, w).r == Done && spec.projectEnabled && spec.staging != "" {
      forall id: nat, s | 1 <= id <= spec.Seats() && s in Block(spec, id)
        ensures Makes(s).Some? && Makes(s).value in Run(p, 0, w).w.store
      {
        assert Blocks(spec)[id - 1] == Block(spec, id);
        TheLoop(spec).InPlan(s);
        BlockEnsures(spec, Block(spec, id), s);
        var j :| 0 <= j < |p| && p[j] == s;
        RunMade(p, j, w);
      }
    }
  }

  /* ---------- deleteProject ---------- */

  method DeleteProjectNamespace(c: Client, staging: string, id: nat) returns (r: Result)
    modifies c
    ensures Answer(c.State(), r) == RemoveEach(old(c.State()), ProjectKeys(staging, id), 0)
  {
    hide DoDelete;
    ghost var keys, goal := ProjectKeys(staging, id), RemoveEach(c.State(), ProjectKeys(staging, id), 0);
    var project, user := staging + Dec(id), "user" + Dec(id);
    var out := c.Delete(Key(RoleBinding, project, user + "-argocd"));
    if out != Ok { return Failed; }
    assert goal == RemoveEach(c.State(), keys, 1);
    out := c.Delete(Key(RoleBinding, project, user + "-default"));
    if out != Ok { return Failed; }
    assert goal == RemoveEach(c.State(), keys, 2);
    out := c.Delete(Key(RoleBinding, project, user + "-project"));
    if out != Ok { return Failed; }
    assert goal == RemoveEach(c.State(), keys, 3);
    out := c.Delete(Key(Namespace, "", project));
    if out != Ok { return Failed; }
    r := Done;
  }

  lemma DoDrop(w: World, staging: string, userId: nat, enabled: bool)
    ensures Do(DropProjects(staging, userId, enabled), w) == DeleteFrom(w, staging, userId, enabled, 1)
  {
  }

  /** Returns Hung where the original never returns. */
  method DeleteProject(c: Client, staging: string, userId: nat, enabled: bool) returns (r: Result)
    modifies c
    ensures Answer(c.State(), r) == Do(DropProjects(staging, userId, enabled), old(c.State()))
  {
    hide Do, DeleteFrom, DoGet, RemoveEach, ProjectKeys, Ahead;
    ghost var goal := DeleteFrom(c.State(), staging, userId, enabled, 1);
    DoDrop(c.State(), staging, userId, enabled);
    var id := 1;
    while true
      invariant id >= 1
      invariant DeleteFrom(c.State(), staging, userId, enabled, id) == goal
      decreases Ahead(c.State(), staging, id)
    {
      AheadDrops(c.State(), staging, id);
      DeleteRound(c.State(), staging, userId, enabled, id);
      if id >= userId && enabled {
        if staging == "" {
          return Hung;
        }
        r := DeleteProjectNamespace(c, staging, id);
        if r != Done { return; }
      } else {
        var out := c.Get(Key(Namespace, "", staging + Dec(id)));
        if out == NotFound {
          return Done;
        }
      }
      id := id + 1;
    }
  }
}
