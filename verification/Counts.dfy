/** Runs of completed passes with changing user counts: three update rules, and the agreement of the components. */
module Counts {
  import opened World
  import opened Steps
  import opened Plans
  import opened Progress
  import opened Frame
  import opened Reconcile
  import opened Finalizer
  import opened MainFacts
  import opened Runs
  import opened Strings = Text
  import Policy
  import UserStage
  import PortalStage
  import ProjectStage
  import BookbagStage
  import NexusStage
  import VaultStage
  import GitOpsStage
  import MeshStage

  /** The pass went through all stages. */
  ghost predicate Completes(w: World, ch: Choice) {
    BuildStart(w).Some? && Pass(w, ch).r == Done
  }

  ghost function SpecOf(w: World): Spec
    requires BuildStart(w).Some?
  {
    BuildStart(w).value.0
  }

  lemma InStage(spec: Spec, order: seq<string>, j: nat, s: Step)
    requires j < |Stages(spec, order)| && s in Stages(spec, order)[j]
    ensures s in MainPlan(spec, order)
  {
    InFlat(Stages(spec, order), 0, s);
  }

  /** What a completed pass leaves under a key that a single step of its plan sees to. */
  lemma CompletedLeaves(w: World, ch: Choice, s: Step)
    requires Completes(w, ch) && (s.EnsureStep? || s.SyncStep?)
    requires s in MainPlan(SpecOf(w), ch.guides) && OnlyBy(MainPlan(SpecOf(w), ch.guides), s)
    ensures var v := Pass(w, ch).w;
            s.key in v.store && v.store[s.key] == Left(s, w.store)
  {
    hide Pass, BuildStart, UserStage.Stage, MainPlan, Run, UserSpace, OnlyBy, Left;
    BuildStartFacts(w, ch);
    var spec, b := SpecOf(w), BuildStart(w).value.1;
    var p := MainPlan(spec, ch.guides);
    var u := UserStage.Stage(spec, ch.users, b);
    MainFine(spec, ch.guides);
    UserStageAvoids(spec, ch.users, b, s.key);
    assert p[0..] == p;
    RunContent(p, 0, s, u.w);
    SameLeft(s, w.store, u.w.store);
  }

  lemma SameLeft(s: Step, a: map<Key, Obj>, b: map<Key, Obj>)
    requires (s.EnsureStep? || s.SyncStep?) && SameAt(a, b, s.key)
    ensures Left(s, a) == Left(s, b)
  {
  }

  /* ---------- One completed pass ---------- */

  lemma GitOpsSteps(spec: Spec, order: seq<string>)
    requires spec.gitopsEnabled
    ensures var p := MainPlan(spec, order); AccountsStep(spec) in p && InstanceStep(spec) in p && ConfigStep(spec) in p
  {
    hide MainPlan, GitOpsStage.Accounts, GitOpsStage.ClusterConfig, GitOpsStage.NamespaceList, Policy.PolicyText,
         GitOpsStage.Opening, GitOpsStage.Blocks;
    var c := GitOpsStage.Closing(spec);
    assert c[1] == AccountsStep(spec) && c[2] == InstanceStep(spec) && c[4] == ConfigStep(spec);
    InStage(spec, order, 5, AccountsStep(spec));
    InStage(spec, order, 5, InstanceStep(spec));
    InStage(spec, order, 5, ConfigStep(spec));
  }

  lemma MeshSteps(spec: Spec, order: seq<string>)
    requires spec.meshEnabled || spec.serverlessEnabled
    ensures var p := MainPlan(spec, order); JaegerStep(spec) in p && MeshUsersStep(spec) in p && RollStep(spec) in p
  {
    hide MainPlan, MeshStage.Subjects, GitOpsStage.ProjectNames, MeshStage.ElasticPlan, MeshStage.JaegerPlan,
         MeshStage.KialiPlan, MeshStage.GatePlan;
    var c := MeshStage.ControlPlan(spec);
    assert c[2] == JaegerStep(spec) && c[3] == MeshUsersStep(spec) && c[5] == RollStep(spec);
    InStage(spec, order, 7, JaegerStep(spec));
    InStage(spec, order, 7, MeshUsersStep(spec));
    InStage(spec, order, 7, RollStep(spec));
  }

  /** Objects that are overwritten when different end up as the pass wants them. */
  lemma OverwrittenObjects(w: World, ch: Choice)
    requires Completes(w, ch)
    ensures var spec, v := SpecOf(w), Pass(w, ch).w.store;
            && (spec.gitopsEnabled ==>
                 GitOpsStage.INSTANCE in v
                 && v[GitOpsStage.INSTANCE] == Text(Policy.PolicyText(spec.staging, spec.Seats())))
            && (spec.meshEnabled || spec.serverlessEnabled ==>
                 && MeshStage.JAEGER_USERS in v && MeshStage.MEMBER_ROLL in v
                 && v[MeshStage.JAEGER_USERS] == Names(MeshStage.Subjects(spec, spec.Seats()))
                 && v[MeshStage.MEMBER_ROLL] == Names(GitOpsStage.ProjectNames(spec.staging, spec.Seats())))
  {
    hide Pass, BuildStart, MainPlan, Policy.PolicyText, MeshStage.Subjects, GitOpsStage.ProjectNames, OnlyBy;
    var spec := SpecOf(w);
    if spec.gitopsEnabled {
      GitOpsSteps(spec, ch.guides);
      OnlyGitOps(spec, ch.guides);
      CompletedLeaves(w, ch, InstanceStep(spec));
    }
    if spec.meshEnabled || spec.serverlessEnabled {
      MeshSteps(spec, ch.guides);
      OnlyMesh(spec, ch.guides);
      CompletedLeaves(w, ch, JaegerStep(spec));
      CompletedLeaves(w, ch, RollStep(spec));
    }
  }

  /** The accounts are replaced only when they do not contain the wanted ones; mesh-users is only ever created. */
  lemma KeptObjects(w: World, ch: Choice)
    requires Completes(w, ch)
    ensures var spec, v := SpecOf(w), Pass(w, ch).w.store;
            && (spec.gitopsEnabled ==>
                 GitOpsStage.ACCOUNTS in v && v[GitOpsStage.ACCOUNTS] == Left(AccountsStep(spec), w.store))
            && (spec.meshEnabled || spec.serverlessEnabled ==>
                 MeshStage.MESH_USERS in v && v[MeshStage.MESH_USERS] == Left(MeshUsersStep(spec), w.store))
  {
    hide Pass, BuildStart, MainPlan, GitOpsStage.Accounts, MeshStage.Subjects, OnlyBy, Left;
    var spec := SpecOf(w);
    if spec.gitopsEnabled {
      GitOpsSteps(spec, ch.guides);
      OnlyGitOps(spec, ch.guides);
      CompletedLeaves(w, ch, AccountsStep(spec));
    }
    if spec.meshEnabled || spec.serverlessEnabled {
      MeshSteps(spec, ch.guides);
      OnlyMesh(spec, ch.guides);
      CompletedLeaves(w, ch, MeshUsersStep(spec));
    }
  }

  lemma AccountsGrow(m: nat, spec: Spec, store: map<Key, Obj>)
    requires GitOpsStage.ACCOUNTS in store && store[GitOpsStage.ACCOUNTS] == Table(GitOpsStage.Accounts(m))
    ensures Left(AccountsStep(spec), store) == Table(GitOpsStage.Accounts(Max(m, spec.Seats())))
  {
    GitOpsStage.AccountsContained(spec.Seats(), m);
  }

  /* ---------- Runs ---------- */

  /** The first n passes of the run all complete. */
  ghost predicate AllComplete(ws: seq<World>, ts: seq<Turn>, n: nat) {
    && IsRun(ws, ts) && n <= |ts|
    && forall i :: 0 <= i < n ==> Completes(Begin(ws[i], ts[i]), ts[i].ch)
  }

  /** The spec the i-th pass works from. */
  ghost function SpecAt(ws: seq<World>, ts: seq<Turn>, i: nat): Spec
    requires i < |ts| && AllComplete(ws, ts, i + 1)
  {
    SpecOf(Begin(ws[i], ts[i]))
  }

  predicate MeshOn(spec: Spec) {
    spec.meshEnabled || spec.serverlessEnabled
  }

  ghost predicate AllGitOps(ws: seq<World>, ts: seq<Turn>, n: nat) {
    && AllComplete(ws, ts, n)
    && forall i :: 0 <= i < n ==> SpecOf(Begin(ws[i], ts[i])).gitopsEnabled
  }

  ghost predicate AllMesh(ws: seq<World>, ts: seq<Turn>, n: nat) {
    && AllComplete(ws, ts, n)
    && forall i :: 0 <= i < n ==> MeshOn(SpecOf(Begin(ws[i], ts[i])))
  }

  lemma Shorter(ws: seq<World>, ts: seq<Turn>, m: nat, n: nat)
    requires m <= n && AllComplete(ws, ts, n)
    ensures AllComplete(ws, ts, m)
    ensures AllGitOps(ws, ts, n) ==> AllGitOps(ws, ts, m)
    ensures AllMesh(ws, ts, n) ==> AllMesh(ws, ts, m)
  {
    hide IsRun, Completes, BuildStart, SpecOf;
  }

  /** The largest user count of the first n passes. */
  ghost function Peak(ws: seq<World>, ts: seq<Turn>, n: nat): nat
    requires AllComplete(ws, ts, n)
  {
    if n == 0 then 0 else Max(Peak(ws, ts, n - 1), SpecAt(ws, ts, n - 1).Seats())
  }

  /** The accounts of argocd-cm are those of the largest count the run has seen. */
  lemma {:induction false} AccountsOfPeak(ws: seq<World>, ts: seq<Turn>, n: nat)
    requires n > 0 && AllGitOps(ws, ts, n) && GitOpsStage.ACCOUNTS !in ws[0].store
    ensures GitOpsStage.ACCOUNTS in ws[n].store
            && ws[n].store[GitOpsStage.ACCOUNTS] == Table(GitOpsStage.Accounts(Peak(ws, ts, n)))
  {
    hide Pass, BuildStart, GitOpsStage.Accounts;
    var w, t := ws[n - 1], ts[n - 1];
    KeptObjects(Begin(w, t), t.ch);
    assert ws[n] == PassOf(ws, ts, n - 1).w;
    if n > 1 {
      AccountsOfPeak(ws, ts, n - 1);
      AccountsGrow(Peak(ws, ts, n - 1), SpecAt(ws, ts, n - 1), w.store);
    } else {
      assert Peak(ws, ts, 0) == 0;
    }
  }

  /** One more completed pass leaves an existing mesh-users binding alone. */
  lemma MeshUsersNext(ws: seq<World>, ts: seq<Turn>, n: nat)
    requires n > 0 && AllMesh(ws, ts, n)
    ensures var v, spec := ws[n].store, SpecAt(ws, ts, n - 1);
            MeshStage.MESH_USERS in v
            && v[MeshStage.MESH_USERS] ==
               if MeshStage.MESH_USERS in ws[n - 1].store then ws[n - 1].store[MeshStage.MESH_USERS]
               else Names(MeshStage.Subjects(spec, spec.Seats()))
  {
    hide Pass, BuildStart, MeshStage.Subjects;
    var w, t := ws[n - 1], ts[n - 1];
    KeptObjects(Begin(w, t), t.ch);
    assert ws[n] == PassOf(ws, ts, n - 1).w;
  }

  /** The mesh-users subjects stay those of the first pass. */
  lemma {:induction false} MeshUsersOfFirst(ws: seq<World>, ts: seq<Turn>, n: nat)
    requires 0 < n <= |ts| < |ws| && AllMesh(ws, ts, n) && MeshStage.MESH_USERS !in ws[0].store
    ensures AllComplete(ws, ts, 1)
    ensures MeshStage.MESH_USERS in ws[n].store
            && ws[n].store[MeshStage.MESH_USERS]
                == Names(MeshStage.Subjects(SpecAt(ws, ts, 0), SpecAt(ws, ts, 0).Seats()))
  {
    Shorter(ws, ts, 1, n);
    Shorter(ws, ts, n - 1, n);
    MeshUsersNext(ws, ts, n);
    hide AllComplete, AllMesh, SpecAt, MeshStage.Subjects;
    if n > 1 {
      MeshUsersOfFirst(ws, ts, n - 1);
    }
  }

  lemma LastOverwrites(ws: seq<World>, ts: seq<Turn>, n: nat)
    requires n > 0 && AllComplete(ws, ts, n)
    ensures SpecAt(ws, ts, n - 1).gitopsEnabled ==> PolicyHolds(ws[n].store, SpecAt(ws, ts, n - 1))
    ensures MeshOn(SpecAt(ws, ts, n - 1)) ==> ListsHold(ws[n].store, SpecAt(ws, ts, n - 1))
  {
    hide Pass, BuildStart, MeshStage.Subjects, Policy.PolicyText, GitOpsStage.ProjectNames;
    OverwrittenObjects(Begin(ws[n - 1], ts[n - 1]), ts[n - 1].ch);
    assert ws[n] == PassOf(ws, ts, n - 1).w;
  }

  ghost predicate AccountsHold(v: map<Key, Obj>, peak: nat) {
    GitOpsStage.ACCOUNTS in v && v[GitOpsStage.ACCOUNTS] == Table(GitOpsStage.Accounts(peak))
  }

  ghost predicate PolicyHolds(v: map<Key, Obj>, last: Spec) {
    GitOpsStage.INSTANCE in v && v[GitOpsStage.INSTANCE] == Text(Policy.PolicyText(last.staging, last.Seats()))
  }

  ghost predicate ListsHold(v: map<Key, Obj>, last: Spec) {
    && MeshStage.JAEGER_USERS in v && v[MeshStage.JAEGER_USERS] == Names(MeshStage.Subjects(last, last.Seats()))
    && MeshStage.MEMBER_ROLL in v
    && v[MeshStage.MEMBER_ROLL] == Names(GitOpsStage.ProjectNames(last.staging, last.Seats()))
  }

  ghost predicate MeshUsersHold(v: map<Key, Obj>, first: Spec) {
    MeshStage.MESH_USERS in v && v[MeshStage.MESH_USERS] == Names(MeshStage.Subjects(first, first.Seats()))
  }

  /** Three update rules over a run of completed passes with counts n1 .. nk. With GitOps on, the accounts are those
      of the maximum and the policy is that of nk, whether the mesh is on or not; with the mesh on, jaeger-users and
      member roll are those of nk and mesh-users stays at n1, whether GitOps is on or not: a pass with GitOps off
      merely leaves Argo CD's controller out of the subjects it wants. */
  lemma ThreeRules(ws: seq<World>, ts: seq<Turn>, n: nat)
    requires n > 0 && AllComplete(ws, ts, n)
    ensures AllComplete(ws, ts, 1)
    ensures AllGitOps(ws, ts, n) && GitOpsStage.ACCOUNTS !in ws[0].store ==>
              AccountsHold(ws[n].store, Peak(ws, ts, n)) && PolicyHolds(ws[n].store, SpecAt(ws, ts, n - 1))
    ensures AllMesh(ws, ts, n) && MeshStage.MESH_USERS !in ws[0].store ==>
              ListsHold(ws[n].store, SpecAt(ws, ts, n - 1)) && MeshUsersHold(ws[n].store, SpecAt(ws, ts, 0))
  {
    Shorter(ws, ts, 1, n);
    LastOverwrites(ws, ts, n);
    hide Completes, BuildStart, SpecOf, MeshStage.Subjects, GitOpsStage.Accounts, Policy.PolicyText,
         GitOpsStage.ProjectNames, Peak, PassOf, PolicyHolds, ListsHold;
    if AllGitOps(ws, ts, n) && GitOpsStage.ACCOUNTS !in ws[0].store {
      AccountsOfPeak(ws, ts, n);
    }
    if AllMesh(ws, ts, n) && MeshStage.MESH_USERS !in ws[0].store {
      MeshUsersOfFirst(ws, ts, n);
    }
  }

  /* ---------- Agreement of the components ---------- */

  /** What a completed pass leaves in the cluster configuration: the list of this pass, whatever was there before. */
  lemma ConfigLists(w: World, ch: Choice)
    requires Completes(w, ch) && SpecOf(w).gitopsEnabled
    ensures var spec, v := SpecOf(w), Pass(w, ch).w.store;
            && GitOpsStage.CLUSTER_CONFIG in v && v[GitOpsStage.CLUSTER_CONFIG].Table?
            && "namespaces" in v[GitOpsStage.CLUSTER_CONFIG].data
            && v[GitOpsStage.CLUSTER_CONFIG].data["namespaces"] == GitOpsStage.NamespaceList(spec.staging, spec.Seats())
  {
    hide Pass, BuildStart, MainPlan, GitOpsStage.NamespaceList, OnlyBy;
    var spec := SpecOf(w);
    GitOpsSteps(spec, ch.guides);
    OnlyGitOps(spec, ch.guides);
    CompletedLeaves(w, ch, ConfigStep(spec));
    ConfigLeft(GitOpsStage.NamespaceList(spec.staging, spec.Seats()), w.store);
  }

  lemma ConfigLeft(list: string, store: map<Key, Obj>)
    ensures var o := Left(SyncStep(GitOpsStage.CLUSTER_CONFIG, Table(GitOpsStage.ClusterConfig(list)), Merged), store);
            o.Table? && "namespaces" in o.data && o.data["namespaces"] == list
  {
    var want := GitOpsStage.ClusterConfig(list);
    assert want["name"] == "in-cluster" && Lookup(map[], "name") == "";
    assert !Contained(want, map[]);
    assert want["namespaces"] == list;
  }

  lemma BlockSteps(spec: Spec, order: seq<string>, id: nat)
    requires 1 <= id <= spec.Seats()
    ensures spec.gitopsEnabled ==> AppStep(spec.staging + Dec(id)) in MainPlan(spec, order)
    ensures spec.projectEnabled && spec.staging != "" ==> ProjectStage.Block(spec, id)[0] in MainPlan(spec, order)
  {
    hide MainPlan, Stages, ProjectStage.Block, GitOpsStage.Block;
    if spec.gitopsEnabled {
      var blocks, s := GitOpsStage.Blocks(spec), AppStep(spec.staging + Dec(id));
      assert s in blocks[id - 1] by { AppInBlock(spec.staging, id); }
      InFlat(blocks, 0, s);
      assert s in GitOpsStage.Stage(spec);
      FifthStage(spec, order, s);
    }
    if spec.projectEnabled && spec.staging != "" {
      var blocks := ProjectStage.Blocks(spec);
      SpaceInBlock(spec, id);
      var s := ProjectStage.Block(spec, id)[0];
      assert s in blocks[id - 1];
      InFlat(blocks, 0, s);
      FirstStage(spec, order, s);
    }
  }

  lemma AppInBlock(staging: string, id: nat)
    ensures AppStep(staging + Dec(id)) in GitOpsStage.Block(staging, id)
  {
    assert GitOpsStage.Block(staging, id)[0] == AppStep(staging + Dec(id));
  }

  lemma SpaceInBlock(spec: Spec, id: nat)
    ensures |ProjectStage.Block(spec, id)| == 4
    ensures ProjectStage.Block(spec, id)[0] == EnsureStep(ProjectStage.Space(spec, id), Bare)
  {
  }

  lemma FifthStage(spec: Spec, order: seq<string>, s: Step)
    requires s in GitOpsStage.Stage(spec)
    ensures s in MainPlan(spec, order)
  {
    InStage(spec, order, 5, s);
  }

  lemma FirstStage(spec: Spec, order: seq<string>, s: Step)
    requires s in Flat(ProjectStage.Blocks(spec), 0)
    ensures s in MainPlan(spec, order)
  {
    InStage(spec, order, 1, s);
  }

  /** A completed pass has ensured every object of its plan. */
  lemma CompletedHas(w: World, ch: Choice, s: Step)
    requires Completes(w, ch) && s in MainPlan(SpecOf(w), ch.guides) && Makes(s).Some?
    ensures Makes(s).value in Pass(w, ch).w.store
  {
    hide Pass, BuildStart, UserStage.Stage, MainPlan, Run;
    BuildStartFacts(w, ch);
    var p := MainPlan(SpecOf(w), ch.guides);
    MainFine(SpecOf(w), ch.guides);
    var j :| 0 <= j < |p| && p[j] == s;
    RunMade(p, j, UserStage.Stage(SpecOf(w), ch.users, BuildStart(w).value.1).w);
  }

  /** Cross-component agreement after a completed pass: for every id in 1 .. users the namespace of the project stage,
      the AppProject with that destination, the mesh member and the entry of the split cluster configuration are one
      and the same name, and both lists have no other entries. */
  lemma ComponentsAgree(w: World, ch: Choice)
    requires Completes(w, ch)
    requires var spec := SpecOf(w);
             spec.projectEnabled && spec.gitopsEnabled && MeshOn(spec) && spec.staging != "" && ',' !in spec.staging
             && spec.Seats() > 0
    ensures var spec, v := SpecOf(w), Pass(w, ch).w.store;
            && MeshStage.MEMBER_ROLL in v && GitOpsStage.CLUSTER_CONFIG in v
            && v[MeshStage.MEMBER_ROLL].Names? && v[GitOpsStage.CLUSTER_CONFIG].Table?
            && "namespaces" in v[GitOpsStage.CLUSTER_CONFIG].data
            && var members := v[MeshStage.MEMBER_ROLL].items;
               && Split(v[GitOpsStage.CLUSTER_CONFIG].data["namespaces"], ',') == members
               && |members| == spec.Seats()
               && forall i :: 0 <= i < |members| ==>
                    && members[i] == spec.staging + Dec(i + 1)
                    && Key(Namespace, "", members[i]) in v
                    && Key(AppProject, GitOpsStage.ARGOCD, members[i]) in v
                    && v[Key(AppProject, GitOpsStage.ARGOCD, members[i])] == Names([members[i]])
  {
    hide Pass, BuildStart, MainPlan, GitOpsStage.NamespaceList, OnlyBy;
    var spec, v := SpecOf(w), Pass(w, ch).w.store;
    OverwrittenObjects(w, ch);
    ConfigLists(w, ch);
    GitOpsStage.ListRoundTrip(spec.staging, spec.Seats());
    var members := GitOpsStage.ProjectNames(spec.staging, spec.Seats());
    forall i | 0 <= i < |members|
      ensures Key(Namespace, "", members[i]) in v && Key(AppProject, GitOpsStage.ARGOCD, members[i]) in v
              && v[Key(AppProject, GitOpsStage.ARGOCD, members[i])] == Names([members[i]])
    {
      UserAgrees(w, ch, i + 1);
    }
  }

  lemma UserAgrees(w: World, ch: Choice, id: nat)
    requires Completes(w, ch) && SpecOf(w).projectEnabled && SpecOf(w).gitopsEnabled && SpecOf(w).staging != ""
    requires 1 <= id <= SpecOf(w).Seats()
    ensures var name, v := SpecOf(w).staging + Dec(id), Pass(w, ch).w.store;
            Key(Namespace, "", name) in v && Key(AppProject, GitOpsStage.ARGOCD, name) in v
            && v[Key(AppProject, GitOpsStage.ARGOCD, name)] == Names([name])
  {
    hide Pass, BuildStart, MainPlan, OnlyBy, ProjectStage.Block;
    var spec := SpecOf(w);
    var name := spec.staging + Dec(id);
    BlockSteps(spec, ch.guides, id);
    SpaceInBlock(spec, id);
    CompletedHas(w, ch, ProjectStage.Block(spec, id)[0]);
    OnlyApp(spec, ch.guides, name);
    CompletedLeaves(w, ch, AppStep(name));
  }

  /* ---------- Roles only in ensured namespaces ---------- */

  /** Every Argo CD role lies in a namespace that is present. */
  ghost predicate RolesPlaced(store: map<Key, Obj>) {
    forall p :: Key(Role, p, GitOpsStage.MANAGER) in store ==> Key(Namespace, "", p) in store
  }

  lemma GitOpsRole(spec: Spec, s: Step, p: string) returns (id: nat)
    requires FromGitOps(spec, s) && Makes(s) == Some(Key(Role, p, GitOpsStage.MANAGER))
    ensures spec.gitopsEnabled && 1 <= id <= spec.Seats() && p == spec.staging + Dec(id)
  {
    hide GitOpsStage.NamespaceList, GitOpsStage.Accounts, GitOpsStage.ClusterConfig, Policy.PolicyText;
    assert s !in GitOpsStage.Opening(spec) && s !in GitOpsStage.Closing(spec);
    id :| 1 <= id <= spec.Seats() && s in GitOpsStage.Block(spec.staging, id);
  }

  lemma RoleSource(spec: Spec, order: seq<string>, s: Step, p: string) returns (id: nat)
    requires s in MainPlan(spec, order) && Makes(s) == Some(Key(Role, p, GitOpsStage.MANAGER))
    ensures spec.gitopsEnabled && 1 <= id <= spec.Seats() && p == spec.staging + Dec(id)
  {
    hide MainPlan, FromGitOps, MeshStage.ControlPlan;
    LateFrom(spec, order, s);
    id := GitOpsRole(spec, s, p);
  }

  /** The plan in two parts: up to the project stage, and from the bookbag stage on. */
  lemma TwoParts(spec: Spec, order: seq<string>)
    ensures var ss := Stages(spec, order);
            MainPlan(spec, order) == (ss[0] + ss[1]) + Flat(ss, 2)
  {
    var ss := Stages(spec, order);
    assert Flat(ss, 0) == ss[0] + Flat(ss, 1);
    assert Flat(ss, 1) == ss[1] + Flat(ss, 2);
  }

  lemma MainPlacesRoles(spec: Spec, order: seq<string>, w: World, p: string)
    requires spec.gitopsEnabled ==> spec.projectEnabled && spec.staging != ""
    requires RolesPlaced(w.store) && Key(Role, p, GitOpsStage.MANAGER) in Run(MainPlan(spec, order), 0, w).w.store
    ensures Key(Namespace, "", p) in Run(MainPlan(spec, order), 0, w).w.store
  {
    hide MainPlan, Run, Stages, Flat;
    var k, plan := Key(Role, p, GitOpsStage.MANAGER), MainPlan(spec, order);
    MainFine(spec, order);
    RunKeeps(plan, 0, w);
    if k !in w.store {
      var j :| 0 <= j < |plan| && Makes(plan[j]) == Some(k);
      assert plan[j] in plan;
      var id := RoleSource(spec, order, plan[j], p);
      NewRole(spec, order, w, id);
    }
  }

  lemma NewRole(spec: Spec, order: seq<string>, w: World, id: nat)
    requires spec.gitopsEnabled && spec.projectEnabled && spec.staging != "" && 1 <= id <= spec.Seats()
    requires Key(Role, spec.staging + Dec(id), GitOpsStage.MANAGER) !in w.store
    requires Key(Role, spec.staging + Dec(id), GitOpsStage.MANAGER) in Run(MainPlan(spec, order), 0, w).w.store
    ensures Key(Namespace, "", spec.staging + Dec(id)) in Run(MainPlan(spec, order), 0, w).w.store
  {
    hide MainPlan, Run, Flat;
    var ss, k := Stages(spec, order), Key(Role, spec.staging + Dec(id), GitOpsStage.MANAGER);
    var a, b := ss[0] + ss[1], Flat(ss, 2);
    TwoParts(spec, order);
    MainFine(spec, order);
    PartsFine(a, b, MainPlan(spec, order));
    FrontMakesNoRole(spec, order, k);
    var j := SpaceIndex(spec, order, id);
    RunBefore(a, b, w, k, j);
  }

  lemma PartsFine(a: Plan, b: Plan, p: Plan)
    requires p == a + b && forall s :: s in p ==> Fine(s)
    ensures Building(a) && Building(b)
  {
    forall s | s in a ensures Fine(s) { assert s in p; }
    forall s | s in b ensures Fine(s) { assert s in p; }
    FineBuilds(a);
    FineBuilds(b);
  }

  lemma FrontMakesNoRole(spec: Spec, order: seq<string>, k: Key)
    requires k.kind == Role && k.name == GitOpsStage.MANAGER
    ensures var a := Stages(spec, order)[0] + Stages(spec, order)[1];
            forall h :: 0 <= h < |a| ==> Makes(a[h]) != Some(k)
  {
    var s0, s1 := Stages(spec, order)[0], Stages(spec, order)[1];
    var a := s0 + s1;
    forall h | 0 <= h < |a| ensures Makes(a[h]) != Some(k) {
      assert a[h] in s0 || a[h] in s1;
      NoRole(spec, order, a[h], k);
    }
  }

  lemma NoRole(spec: Spec, order: seq<string>, s: Step, k: Key)
    requires k.kind == Role && k.name == GitOpsStage.MANAGER
    requires s in Stages(spec, order)[0] || s in Stages(spec, order)[1]
    ensures Makes(s) != Some(k)
  {
    hide ProjectStage.Stage, PortalStage.RedisPlan, PortalStage.DistributionPlan, FromProject, BookbagStage.Stage,
         GitOpsStage.Stage, MeshStage.Stage, VaultStage.Stage, NexusStage.Stage;
    if s in Stages(spec, order)[0] {
      NotLatePortal(spec, order, s);
    } else {
      InProject(spec, s);
      NotLateProject(spec, s);
    }
  }

  lemma SpaceIndex(spec: Spec, order: seq<string>, id: nat) returns (j: nat)
    requires spec.projectEnabled && spec.staging != "" && 1 <= id <= spec.Seats()
    ensures var a := Stages(spec, order)[0] + Stages(spec, order)[1];
            j < |a| && Makes(a[j]) == Some(Key(Namespace, "", spec.staging + Dec(id)))
  {
    hide ProjectStage.Block, PortalStage.Stage;
    var blocks := ProjectStage.Blocks(spec);
    SpaceInBlock(spec, id);
    var s := ProjectStage.Block(spec, id)[0];
    assert s in blocks[id - 1];
    InFlat(blocks, 0, s);
    var a := Stages(spec, order)[0] + Stages(spec, order)[1];
    assert s in a;
    j :| 0 <= j < |a| && a[j] == s;
  }

  /** If the pass works from a spec with GitOps on, projects are on as well and have a name. */
  ghost predicate ProjectsWithGitOps(w: World) {
    BuildStart(w).Some? && SpecOf(w).gitopsEnabled ==> SpecOf(w).projectEnabled && SpecOf(w).staging != ""
  }

  lemma PassPlacesRoles(w: World, ch: Choice)
    requires !Deletes(w) && RolesPlaced(w.store)
    requires ProjectsWithGitOps(w)
    ensures RolesPlaced(Pass(w, ch).w.store)
  {
    hide Pass, BuildStart, Deletes, UserStage.Stage, MainPlan, Run;
    if BuildStart(w).Some? {
      BuildStartFacts(w, ch);
      var spec, b := SpecOf(w), BuildStart(w).value.1;
      var u := UserStage.Stage(spec, ch.users, b);
      forall p ensures SameAt(b.store, u.w.store, Key(Role, p, GitOpsStage.MANAGER))
                       && SameAt(b.store, u.w.store, Key(Namespace, "", p))
      {
        UserStageAvoids(spec, ch.users, b, Key(Role, p, GitOpsStage.MANAGER));
        UserStageAvoids(spec, ch.users, b, Key(Namespace, "", p));
      }
      if u.r == Done {
        forall p | Key(Role, p, GitOpsStage.MANAGER) in Pass(w, ch).w.store
          ensures Key(Namespace, "", p) in Pass(w, ch).w.store
        {
          MainPlacesRoles(spec, ch.guides, u.w, p);
        }
      }
    } else {
      IdlePass(w, ch);
    }
  }

  /** Over every run that does not delete, under any faults, and with projects switched on wherever GitOps is: an Argo
      CD role is present only in a namespace the project stage has already ensured. */
  lemma {:induction false} RolesStayPlaced(ws: seq<World>, ts: seq<Turn>, n: nat)
    requires IsRun(ws, ts) && n <= |ts| && RolesPlaced(ws[0].store)
    requires forall i :: 0 <= i < n ==> !Deletes(Begin(ws[i], ts[i]))
    requires forall i :: 0 <= i < n ==> ProjectsWithGitOps(Begin(ws[i], ts[i]))
    ensures RolesPlaced(ws[n].store)
  {
    hide Pass, BuildStart, Deletes, RolesPlaced;
    if n > 0 {
      RolesStayPlaced(ws, ts, n - 1);
      assert ws[n] == PassOf(ws, ts, n - 1).w;
      PassPlacesRoles(Begin(ws[n - 1], ts[n - 1]), ts[n - 1].ch);
    }
  }
}
