/** Role bindings name the right subjects: over every run, under any faults. */
module Bindings {
  import opened World
  import opened Steps
  import opened Scans
  import opened Plans
  import opened Progress
  import opened Frame
  import opened Htpasswd
  import opened Accounts
  import opened Convergence
  import opened Reconcile
  import opened Finalizer
  import opened MainFacts
  import opened Runs
  import opened Resume
  import opened Strings = Text
  import UserStage
  import ProjectStage
  import BookbagStage
  import GitOpsStage
  import MeshStage

  /* ---------- Keeping one content under a key ---------- */

  ghost predicate Only(store: map<Key, Obj>, k: Key, o: Obj) {
    k in store ==> store[k] == o
  }

  /** The step leaves the key alone, takes it away, or writes this very content. */
  ghost predicate Loyal(s: Step, k: Key, o: Obj) {
    Avoids(s, k) || Taking(s) || s == EnsureStep(k, o) || s == SyncStep(k, o, Same)
  }

  lemma TakingOnly(s: Step, w: World, k: Key, o: Obj)
    requires Taking(s) && Only(w.store, k, o)
    ensures Only(Do(s, w).w.store, k, o)
  {
    match s
    case PeekStep(key) => GetFacts(w, key);
    case RemoveStep(key) => DeleteFacts(w, key);
    case DropStep(key) =>
      GetFacts(w, key);
      DeleteFacts(DoGet(w, key).w, key);
    case DropProjects(staging, userId, enabled) => var m, n := DeleteShape(w, staging, userId, enabled, 1);
    case ForeignStep(name) => ReadFacts(w, Watch, Key(Workshop, "", name), Ok);
  }

  lemma SyncOnly(w: World, k: Key, o: Obj)
    requires Only(w.store, k, o)
    ensures Only(SyncKey(w, k, o, Same).w.store, k, o)
  {
    var c := DoCreate(w, k, o);
    CreateFacts(w, k, o);
    var g := DoGet(c.w, k);
    GetFacts(c.w, k);
    UpdateFacts(g.w, k, o);
  }

  lemma StepOnly(s: Step, w: World, k: Key, o: Obj)
    requires Loyal(s, k, o) && Only(w.store, k, o)
    ensures Only(Do(s, w).w.store, k, o)
  {
    if Taking(s) { TakingOnly(s, w, k, o); }
    else if Avoids(s, k) { StepAvoids(s, w, k); }
    else if s.EnsureStep? { CreateFacts(w, k, o); }
    else { SyncOnly(w, k, o); }
  }

  lemma {:induction false} RunOnly(p: Plan, i: nat, w: World, k: Key, o: Obj)
    requires i <= |p| && (forall s :: s in p ==> Loyal(s, k, o)) && Only(w.store, k, o)
    ensures Only(Run(p, i, w).w.store, k, o)
    decreases |p| - i
  {
    if i < |p| {
      assert p[i] in p;
      StepOnly(p[i], w, k, o);
      RunNext(p, i, w);
      hide Do, Run, Loyal, Only;
      if Do(p[i], w).r == Done {
        RunOnly(p, i + 1, Do(p[i], w).w, k, o);
      }
    }
  }

  /* ---------- The subjects ---------- */

  /** A name made of user, number, dash and word. */
  ghost predicate Word(name: string, i: nat, x: string) {
    name == "user" + Dec(i) + ("-" + x)
  }

  /** A name of that form determines number and word. */
  lemma UserNames(name: string, i: nat, x: string, j: nat, y: string)
    requires Word(name, i, x) && Word(name, j, y)
    ensures i == j && x == y
  {
    assert name[4..] == Dec(i) + ['-'] + x && name[4..] == Dec(j) + ['-'] + y;
    DecDigits(i);
    DecDigits(j);
    DigitsThenMark(Dec(i), Dec(j), '-', x, y);
    UndecDec(i);
    UndecDec(j);
  }

  /** Who the bindings of the i-th user are meant for, by the word in their name: the user, the default account of the
      project, Argo CD's controller, or the account of the user's bookbag. */
  ghost predicate Meant(ns: string, i: nat, x: string, subject: string) {
    || (x == "project" && subject == "user" + Dec(i))
    || (x == "default" && subject == "default")
    || (x == "argocd" && subject == "system:serviceaccount:argocd:argocd-argocd-application-controller")
    || (x == "bookbag" && ns == "workshop-guides" && subject == "user" + Dec(i) + "-bookbag")
  }

  /** Whose a role binding is: in the infra namespace the user's it is named after, elsewhere by the word in its name,
      and Argo CD's controller's for the manager's. */
  ghost predicate Right(k: Key, subject: string) {
    && k.kind == RoleBinding
    && if k.ns == "workshop-infra" then subject == k.name
       else if k.name == "argocd-manager" then
         subject == "system:serviceaccount:argocd:argocd-argocd-application-controller"
       else exists i: nat, x :: Word(k.name, i, x) && Meant(k.ns, i, x, subject)
  }

  /** Every such binding that is there names its subject and nobody else. */
  ghost predicate AllRight(store: map<Key, Obj>) {
    forall k, subject :: Right(k, subject) ==> Only(store, k, Names([subject]))
  }

  lemma RightWord(k: Key, subject: string, i: nat, x: string)
    requires Right(k, subject) && k.ns != "workshop-infra" && Word(k.name, i, x)
    ensures Meant(k.ns, i, x, subject)
  {
    assert k.name[0] == 'u' && "argocd-manager"[0] == 'a';
    var j: nat, y :| Word(k.name, j, y) && Meant(k.ns, j, y, subject);
    UserNames(k.name, i, x, j, y);
  }

  /** The bindings with a subject of their own are the users' and the manager's. */
  lemma RightNames(k: Key, subject: string)
    requires Right(k, subject) && k.ns != "workshop-infra"
    ensures k.kind == RoleBinding && k.name != "" && (k.name[0] == 'u' || k.name == "argocd-manager")
  {
    if k.name != "argocd-manager" {
      var i: nat, x :| Word(k.name, i, x) && Meant(k.ns, i, x, subject);
      assert ("user" + Dec(i) + ("-" + x))[0] == 'u';
    }
  }

  /* ---------- The plans ---------- */

  lemma ElsewhereLoyal(s: Step, k: Key, o: Obj)
    requires Builder(s) && Makes(s) != Some(k)
    ensures Loyal(s, k, o)
  {
  }

  lemma ProjectWord(spec: Spec, id: nat, s: Step) returns (x: string)
    requires s in ProjectStage.Block(spec, id) && s.key.kind == RoleBinding
    ensures s.EnsureStep? && Word(s.key.name, id, x)
    ensures forall subject :: Meant(s.key.ns, id, x, subject) ==> s.obj == Names([subject])
  {
    hide Dec;
    assert "-" + "project" == "-project" && "-" + "default" == "-default" && "-" + "argocd" == "-argocd";
    x := if s == ProjectStage.Block(spec, id)[1] then "project"
         else if s == ProjectStage.Block(spec, id)[2] then "default" else "argocd";
  }

  lemma ProjectLoyal(spec: Spec, s: Step, k: Key, subject: string)
    requires FromProject(spec, s) && Makes(s) == Some(k) && Right(k, subject) && k.ns != "workshop-infra"
    ensures s == EnsureStep(k, Names([subject]))
  {
    hide Right, Dec, Word, Meant, ProjectStage.Block;
    RightNames(k, subject);
    var id: nat :| 1 <= id <= spec.Seats() && s in ProjectStage.Block(spec, id);
    var x := ProjectWord(spec, id, s);
    RightWord(k, subject, id, x);
  }

  lemma BookbagBinding(spec: Spec, id: nat, s: Step)
    requires s in BookbagStage.Block(spec, id) && s.key.kind == RoleBinding
    ensures s == EnsureStep(Key(RoleBinding, "workshop-guides", BookbagStage.Name(id)), Names([BookbagStage.Name(id)]))
  {
    hide BookbagStage.Name, BookbagStage.Environment;
  }

  lemma BookbagWord(id: nat)
    ensures Word(BookbagStage.Name(id), id, "bookbag")
  {
    assert "-" + "bookbag" == "-bookbag";
  }

  lemma BookbagMeant(id: nat, ns: string, subject: string)
    requires Meant(ns, id, "bookbag", subject)
    ensures subject == BookbagStage.Name(id)
  {
  }

  lemma BookbagLoyal(spec: Spec, s: Step, k: Key, subject: string)
    requires FromBookbag(spec, s) && Makes(s) == Some(k) && Right(k, subject) && k.ns != "workshop-infra"
    ensures s == EnsureStep(k, Names([subject]))
  {
    hide Meant, BookbagStage.Block, BookbagStage.Name, Right, Word;
    RightNames(k, subject);
    var id: nat :| 1 <= id <= spec.Seats() && s in BookbagStage.Block(spec, id);
    BookbagBinding(spec, id, s);
    BookbagWord(id);
    RightWord(k, subject, id, "bookbag");
    BookbagMeant(id, k.ns, subject);
  }

  lemma GitOpsLoyal(spec: Spec, s: Step, k: Key, subject: string)
    requires FromGitOps(spec, s) && Makes(s) == Some(k) && Right(k, subject) && k.ns != "workshop-infra"
    ensures s == SyncStep(k, Names([subject]), Same)
  {
    RightNames(k, subject);
    GitOpsByKey(spec, s);
    hide FromGitOps;
  }

  /** The mesh's own bindings are none of these. */
  lemma MeshBinding(spec: Spec, s: Step)
    requires FromMesh(spec, s) && Makes(s).Some? && Makes(s).value.kind == RoleBinding
    ensures var name := Makes(s).value.name; name != "" && name[0] != 'u' && name != "argocd-manager"
  {
    hide MeshStage.Subjects, MeshStage.Elastic, GitOpsStage.ProjectNames;
    var k := Makes(s).value;
    if s !in MeshStage.ControlPlan(spec) { OperatorsNoBinding(spec, s); }
    assert k == MeshStage.JAEGER_USERS || k == MeshStage.MESH_USERS;
    assert k.name[0] == 'j' || k.name[0] == 'm';
  }

  lemma OperatorsNoBinding(spec: Spec, s: Step)
    requires FromMesh(spec, s) && s !in MeshStage.ControlPlan(spec)
    ensures Makes(s).Some? ==> Makes(s).value.kind != RoleBinding
  {
    hide MeshStage.ControlPlan;
  }

  /** The other stages make no role bindings. */
  lemma NoBinding(spec: Spec, order: seq<string>, s: Step)
    requires FromPortal(spec, order, s) || FromNexus(s) || FromVault(s) || s.ForeignStep?
    requires Makes(s).Some?
    ensures Makes(s).value.kind != RoleBinding
  {
    if FromVault(s) { VaultKeys(s); }
    else if FromNexus(s) { NexusNoBinding(s); }
    else { PortalNoBinding(spec, order, s); }
    hide FromPortal, FromNexus, FromVault;
  }

  lemma NexusNoBinding(s: Step)
    requires FromNexus(s) && Makes(s).Some?
    ensures Makes(s).value.kind != RoleBinding
  {
  }

  lemma PortalNoBinding(spec: Spec, order: seq<string>, s: Step)
    requires FromPortal(spec, order, s) && Makes(s).Some?
    ensures Makes(s).value.kind != RoleBinding
  {
    hide PortalStage.Environment;
  }

  lemma MainLoyal(spec: Spec, order: seq<string>, s: Step, k: Key, subject: string)
    requires s in MainPlan(spec, order) && Right(k, subject)
    ensures Loyal(s, k, Names([subject]))
  {
    hide MainPlan, FromPortal, FromProject, FromBookbag, FromNexus, FromGitOps, FromMesh, FromVault, Loyal;
    MainFine(spec, order);
    if Makes(s) != Some(k) {
      ElsewhereLoyal(s, k, Names([subject]));
    } else {
      assert k.ns != "workshop-infra";
      RightNames(k, subject);
      hide Right, UserSpace;
      InMain(spec, order, s);
      if FromProject(spec, s) { ProjectLoyal(spec, s, k, subject); }
      else if FromBookbag(spec, s) { BookbagLoyal(spec, s, k, subject); }
      else if FromGitOps(spec, s) { GitOpsLoyal(spec, s, k, subject); }
      else if FromMesh(spec, s) { MeshBinding(spec, s); }
      else { NoBinding(spec, order, s); }
      OwnLoyal(s, k, Names([subject]));
    }
  }

  lemma RightKind(k: Key, subject: string)
    requires Right(k, subject)
    ensures k.kind == RoleBinding
  {
  }

  lemma OwnLoyal(s: Step, k: Key, o: Obj)
    requires s == EnsureStep(k, o) || s == SyncStep(k, o, Same)
    ensures Loyal(s, k, o)
  {
  }

  lemma UserBlockLoyal(name: string, s: Step, k: Key, subject: string)
    requires (s in UserStage.RemoveBlock(name) || s in UserStage.AddBlock(name)) && Right(k, subject)
    ensures Loyal(s, k, Names([subject]))
  {
  }

  lemma SecretLoyal(text: string, total: int, prefix: string, k: Key, o: Obj)
    requires k.kind == RoleBinding
    ensures Loyal(SecretFile(text, total, prefix), k, o)
  {
  }

  lemma UserLoyal(spec: Spec, ch: UserStage.Choice, s: Step, k: Key, subject: string)
    requires s in UserStage.UserPlan(spec, ch) && Right(k, subject)
    ensures Loyal(s, k, Names([subject]))
  {
    hide Loyal, Right, UserStage.RemoveBlock, UserStage.AddBlock;
    var rem, add := UserStage.Removals(ch.items, Wanted(spec.prefix, spec.users)),
        UserStage.Additions(ch.order, ch.items);
    InFlat(rem, 0, s);
    InFlat(add, 0, s);
    if s in Flat(rem, 0) {
      var j :| 0 <= j < |rem| && s in rem[j];
      UserBlockLoyal(ch.items[j], s, k, subject);
    } else if s in Flat(add, 0) {
      var j :| 0 <= j < |add| && s in add[j];
      UserBlockLoyal(ch.order[j], s, k, subject);
    } else {
      RightKind(k, subject);
      SecretLoyal(File(ch.lines, ch.hash), spec.users, spec.prefix, k, Names([subject]));
    }
  }

  /* ---------- A pass ---------- */

  lemma StageOnly(spec: Spec, ch: UserStage.Choice, w: World, k: Key, subject: string)
    requires Right(k, subject) && Only(w.store, k, Names([subject]))
    ensures Only(UserStage.Stage(spec, ch, w).w.store, k, Names([subject]))
  {
    hide DoList, Run, UserStage.UserPlan, Loyal, Right;
    ListKeeps(w);
    forall s | s in UserStage.UserPlan(spec, ch) ensures Loyal(s, k, Names([subject])) {
      UserLoyal(spec, ch, s, k, subject);
    }
    RunOnly(UserStage.UserPlan(spec, ch), 0, DoList(w).w, k, Names([subject]));
  }

  lemma MainOnly(spec: Spec, order: seq<string>, w: World, k: Key, subject: string)
    requires Right(k, subject) && Only(w.store, k, Names([subject]))
    ensures Only(Run(MainPlan(spec, order), 0, w).w.store, k, Names([subject]))
  {
    hide Run, MainPlan, Loyal, Right;
    forall s | s in MainPlan(spec, order) ensures Loyal(s, k, Names([subject])) {
      MainLoyal(spec, order, s, k, subject);
    }
    RunOnly(MainPlan(spec, order), 0, w, k, Names([subject]));
  }

  lemma TearOnly(p: Plan, w: World, k: Key, o: Obj)
    requires AllTaking(p) && Only(w.store, k, o)
    ensures Only(Run(p, 0, w).w.store, k, o)
  {
    hide Run, Taking;
    forall s | s in p ensures Loyal(s, k, o) {
      var i :| 0 <= i < |p| && p[i] == s;
      assert Taking(p[i]);
    }
    RunOnly(p, 0, w, k, o);
  }

  lemma FinalizeOnly(copy: Resource, ch: Choice, w: World, k: Key, o: Obj)
    requires Only(w.store, k, o)
    ensures Only(Finalize(copy, ch, w).w.store, k, o)
  {
    hide DoList, UserStage.DeletePlan, TearPlan, Run, DoUpdateWorkshop, Only, AllTaking;
    ListKeeps(w);
    DeleteTaking(ch.listed);
    TearTaking(copy.spec);
    TearOnly(UserStage.DeletePlan(ch.listed), DoList(w).w, k, o);
    TearOnly(TearPlan(copy.spec), Run(UserStage.DeletePlan(ch.listed), 0, DoList(w).w).w, k, o);
    UpdateWorkshopFacts(Teardown(copy.spec, ch, w).w, copy.(finalizers := Dropped(copy.finalizers)));
  }

  /** Whatever fails, a pass leaves a binding that is right or missing right or missing. */
  lemma PassOnly(w: World, ch: Choice, k: Key, subject: string)
    requires Right(k, subject) && Only(w.store, k, Names([subject]))
    ensures Only(Pass(w, ch).w.store, k, Names([subject]))
  {
    hide Pass, BuildStart, Deletes, Finalize, DoGetWorkshop, Foreign, UserStage.Stage, MainPlan, Run, Only, Right;
    if BuildStart(w).Some? {
      BuildStartFacts(w, ch);
      var spec, b := BuildStart(w).value.0, BuildStart(w).value.1;
      StageOnly(spec, ch.users, b, k, subject);
      MainOnly(spec, ch.guides, UserStage.Stage(spec, ch.users, b).w, k, subject);
    } else if Deletes(w) {
      DeletingPass(w, ch);
      FinalizeOnly(DoGetWorkshop(w).w.cr.value, ch, Foreign(DoGetWorkshop(w).w, "console").w, k, Names([subject]));
    } else {
      IdlePass(w, ch);
    }
  }

  /** Over every run, with faults at any call, deletion, and any changes of the spec: a store whose bindings are right
      stays one, so each binding in the infra namespace has exactly the user it is named after as its subject, and each
      user's project and bookbag bindings have theirs. */
  lemma {:induction false} BindingsOverRuns(ws: seq<World>, ts: seq<Turn>, n: nat)
    requires IsRun(ws, ts) && n <= |ts| && AllRight(ws[0].store)
    ensures AllRight(ws[n].store)
    ensures forall name :: UserStage.Binding(name) in ws[n].store ==>
              ws[n].store[UserStage.Binding(name)] == Names([name])
  {
    hide Pass, Right, Only, Reconcile.Possible;
    if n > 0 {
      BindingsOverRuns(ws, ts, n - 1);
      assert ws[n] == PassOf(ws, ts, n - 1).w;
      forall k, subject | Right(k, subject) ensures Only(ws[n].store, k, Names([subject])) {
        PassOnly(Begin(ws[n - 1], ts[n - 1]), ts[n - 1].ch, k, subject);
      }
    }
    InfraRight(ws[n].store);
  }

  lemma InfraRight(store: map<Key, Obj>)
    requires AllRight(store)
    ensures forall name :: UserStage.Binding(name) in store ==> store[UserStage.Binding(name)] == Names([name])
  {
    forall name | UserStage.Binding(name) in store ensures store[UserStage.Binding(name)] == Names([name]) {
      assert Right(UserStage.Binding(name), name);
      assert Only(store, UserStage.Binding(name), Names([name]));
    }
  }

  /** After a fault-free pass that can remove its stale users, every wanted user that was not listed has all four
      objects; where they were missing, the user carries the operator's label, and the only subject of the role binding
      is the user. */
  lemma PassServesUser(w: World, ch: Choice, id: nat)
    requires Calm(w) && Possible(w, ch) && BuildStart(w).Some? && Chained(w.store)
    requires var spec := BuildStart(w).value.0;
             && StaleComplete(w.store, Wanted(spec.prefix, spec.users)) && 1 <= id <= spec.users
             && !IsManaged(w.store, spec.prefix + Dec(id))
    ensures var v, name := Pass(w, ch).w.store, BuildStart(w).value.0.prefix + Dec(id);
            var user, binding := Key(User, "", name), Key(RoleBinding, "workshop-infra", name);
            && user in v && (user !in w.store ==> v[user] == Account(true))
            && binding in v && (binding !in w.store ==> v[binding] == Names([name]))
            && Key(Identity, "", "htpass-workshop-users:" + name) in v
            && Key(UserIdentityMapping, "", "htpass-workshop-users:" + name) in v
  {
    hide Pass, BuildStart, UserStage.Stage, UserStage.Possible, MainPlan, Run, Chained, StaleComplete,
         Reconcile.Possible, Managed, IsManaged, Dec;
    BuildStartFacts(w, ch);
    var spec, b := BuildStart(w).value.0, BuildStart(w).value.1;
    var name := spec.prefix + Dec(id);
    assert name == Name(spec.prefix, id) && name in Wanted(spec.prefix, spec.users);
    hide Wanted;
    var u := UserStage.Stage(spec, ch.users, b);
    CalmStage(spec, ch.users, b);
    MainKeepsUsers(spec, ch.guides, u.w);
    ServedLinks(w.store, u.w.store, Pass(w, ch).w.store, Wanted(spec.prefix, spec.users), name);
    var binding := Key(RoleBinding, "workshop-infra", name);
    if binding !in w.store {
      assert Right(binding, name);
      PassOnly(w, ch, binding, name);
    }
  }

  lemma ServedLinks(before: map<Key, Obj>, mid: map<Key, Obj>, after: map<Key, Obj>, wanted: set<string>, name: string)
    requires Exact(before, mid, wanted) && name in wanted && !IsManaged(before, name)
    requires forall n, i :: 0 <= i < 4 ==> SameAt(mid, after, Link(n, i))
    ensures forall i :: 0 <= i < 4 ==> Link(name, i) in after
    ensures Key(User, "", name) in after && Key(RoleBinding, "workshop-infra", name) in after
    ensures Key(Identity, "", "htpass-workshop-users:" + name) in after
    ensures Key(UserIdentityMapping, "", "htpass-workshop-users:" + name) in after
    ensures Key(User, "", name) !in before ==> after[Key(User, "", name)] == Account(true)
  {
    forall i | 0 <= i < 4 ensures Link(name, i) in after {
      assert SameAt(mid, after, Link(name, i));
    }
    var a, b, c, d := Link(name, 0), Link(name, 1), Link(name, 2), Link(name, 3);
    assert SameAt(mid, after, a);
    if a !in before { assert IsManaged(mid, name); }
  }
}
