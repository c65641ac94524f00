/** What a completed pass leaves in the objects whose content it sees to, written out. */
module Contents {
  import opened World
  import opened Steps
  import opened Plans
  import opened Progress
  import opened Frame
  import opened Reconcile
  import opened MainFacts
  import opened Runs
  import opened Counts
  import opened Inventory
  import opened Installed
  import opened Strings = Text
  import UserStage
  import PortalStage
  import ProjectStage
  import BookbagStage
  import NexusStage
  import GitOpsStage
  import MeshStage
  import VaultStage

  /** An object compared as a whole is as the pass wants it. */
  lemma SyncedExactly(w: World, ch: Choice, s: Step)
    requires Completes(w, ch) && s in MainPlan(SpecOf(w), ch.guides) && s.SyncStep? && s.rule == Same
    ensures s.key in Pass(w, ch).w.store && Pass(w, ch).w.store[s.key] == s.obj
  {
    hide Pass, BuildStart, UserStage.Stage, MainPlan, Run, Settled;
    BuildStartFacts(w, ch);
    var spec, b := SpecOf(w), BuildStart(w).value.1;
    var p := MainPlan(spec, ch.guides);
    MainFine(spec, ch.guides);
    MainDistinct(spec, ch.guides);
    RunSettles(p, 0, UserStage.Stage(spec, ch.users, b).w);
    var j :| 0 <= j < |p| && p[j] == s;
    SettledSame(p[j], Pass(w, ch).w.store);
  }

  lemma SettledSame(s: Step, store: map<Key, Obj>)
    requires Settled(s, store) && s.SyncStep? && s.rule == Same
    ensures s.key in store && store[s.key] == s.obj
  {
  }

  /* ---------- Portal ---------- */

  /** The portal's environment: the settings of the spec, and a list of guides with one entry per guide, each carrying
      the five parameters; without scholars or guides it is the default page. */
  lemma PortalContents(w: World, ch: Choice) returns (urls: string, query: string)
    requires Completes(w, ch) && Possible(w, ch)
    ensures var spec, v := SpecOf(w), Pass(w, ch).w.store;
            && Key(Deployment, spec.namespace, "redis") in v && Key(Deployment, spec.namespace, "portal") in v
            && v[Key(Deployment, spec.namespace, "redis")] == Names(["REDIS_PASSWORD"])
            && v[Key(Deployment, spec.namespace, "portal")] ==
               Names(["LAB_REDIS_HOST=redis", "LAB_REDIS_PASS=redis", "LAB_TITLE=OpenShift Workshops",
                      "LAB_DURATION_HOURS=1week", "LAB_USER_COUNT=" + Dec(spec.Seats()),
                      "LAB_USER_ACCESS_TOKEN=" + spec.password, "LAB_USER_PASS=" + spec.password,
                      "LAB_USER_PREFIX=user", "LAB_USER_PAD_ZERO=false", "LAB_ADMIN_PASS=r3dh4t1!",
                      "LAB_MODULE_URLS=" + urls, "quay.io/mcouliba/username-distribution:latest"])
    ensures var spec := SpecOf(w);
            !spec.scholars || spec.guides == map[] ==>
              urls == "https://docs.openshift.com/container-platform/latest/welcome/index.html;openshift_docs"
    ensures var spec := SpecOf(w);
            spec.scholars && spec.guides != map[] && PortalStage.CommaFree(spec) ==>
              && Ordering(ch.guides, spec.guides.Keys) && |Split(urls, ',')| == |ch.guides| == |spec.guides|
              && forall i :: 0 <= i < |ch.guides| ==>
                   ch.guides[i] in spec.guides
                   && Split(urls, ',')[i] == spec.guides[ch.guides[i]] + "?" + query + ";" + ch.guides[i]
    ensures var spec := SpecOf(w);
            '&' !in spec.suffix && '&' !in spec.password && '&' !in spec.gitRef ==>
              Split(query, '&') ==
              ["APPS_HOSTNAME_SUFFIX=" + spec.suffix, "USER_ID=%USER_ID%", "OPENSHIFT_PASSWORD=" + spec.password,
               "WORKSHOP_GIT_REPO=" + QueryEscape(spec.gitUrl), "WORKSHOP_GIT_REF=" + spec.gitRef]
  {
    var spec := SpecOf(w);
    urls, query := PortalStage.ModuleUrls(spec, ch.guides), PortalStage.Parameters(spec);
    PortalSynced(w, ch);
    assert Ordering(ch.guides, spec.guides.Keys) by { GuidesOrdered(w, ch); }
    hide Pass, BuildStart, PortalStage.Parameters, Split, QueryEscape, Reconcile.Possible;
    if '&' !in spec.suffix && '&' !in spec.password && '&' !in spec.gitRef {
      PortalStage.FiveParameters(spec);
    }
    GuideEntries(spec, ch.guides);
  }

  lemma GuidesOrdered(w: World, ch: Choice)
    requires BuildStart(w).Some? && Possible(w, ch)
    ensures Ordering(ch.guides, SpecOf(w).guides.Keys)
  {
    hide Pass, BuildStart, Reconcile.Possible, UserStage.Possible;
    BuildStartFacts(w, ch);
  }

  lemma PortalSynced(w: World, ch: Choice)
    requires Completes(w, ch)
    ensures var spec, v := SpecOf(w), Pass(w, ch).w.store;
            && Key(Deployment, spec.namespace, "redis") in v && Key(Deployment, spec.namespace, "portal") in v
            && v[Key(Deployment, spec.namespace, "redis")] == Names(["REDIS_PASSWORD"])
            && v[Key(Deployment, spec.namespace, "portal")]
               == PortalStage.Environment(spec, PortalStage.ModuleUrls(spec, ch.guides))
  {
    hide Pass, BuildStart, MainPlan, PortalStage.Environment, PortalStage.ModuleUrls;
    var spec := SpecOf(w);
    var p := PortalStage.Stage(spec, ch.guides);
    FirstPart(spec, ch.guides, p[2]);
    FirstPart(spec, ch.guides, p[4]);
    SyncedExactly(w, ch, p[2]);
    SyncedExactly(w, ch, p[4]);
  }

  lemma FirstPart(spec: Spec, order: seq<string>, s: Step)
    requires s in PortalStage.Stage(spec, order)
    ensures s in MainPlan(spec, order)
  {
    hide PortalStage.Stage;
    InStage(spec, order, 0, s);
  }

  lemma GuideEntries(spec: Spec, order: seq<string>)
    requires Ordering(order, spec.guides.Keys)
    ensures !spec.scholars || spec.guides == map[] ==>
              PortalStage.ModuleUrls(spec, order)
              == "https://docs.openshift.com/container-platform/latest/welcome/index.html;openshift_docs"
    ensures spec.scholars && spec.guides != map[] && PortalStage.CommaFree(spec) ==>
              var parts := Split(PortalStage.ModuleUrls(spec, order), ',');
              && |parts| == |order| == |spec.guides|
              && forall i :: 0 <= i < |order| ==>
                   order[i] in spec.guides
                   && parts[i] == spec.guides[order[i]] + "?" + PortalStage.Parameters(spec) + ";" + order[i]
  {
    hide PortalStage.Parameters, Split;
    forall i | 0 <= i < |order| ensures order[i] in spec.guides { }
    if spec.guides == map[] {
      OrderingSize(order, spec.guides.Keys);
    } else {
      var n :| n in spec.guides;
      assert n in order;
      if spec.scholars && PortalStage.CommaFree(spec) { PortalStage.OneEntryPerGuide(spec, order); }
    }
  }

  /* ---------- Bookbags ---------- */

  /** A user's terminal is told its own name, user and password, and if no setting contains a quote its variables read
      back as exactly these. */
  lemma BookbagContents(w: World, ch: Choice, id: nat) returns (text: string)
    requires Completes(w, ch) && SpecOf(w).bookbagEnabled && 1 <= id <= SpecOf(w).Seats()
    ensures var spec, v, user := SpecOf(w), Pass(w, ch).w.store, "user" + Dec(id);
            var k := Key(Deployment, "workshop-guides", user + "-bookbag");
            && k in v
            && v[k] ==
               Names(["APPLICATION_NAME=" + (user + "-bookbag"), "AUTH_USERNAME=user" + Dec(id),
                      "AUTH_PASSWORD=" + spec.password, "OAUTH_SERVICE_ACCOUNT=bookbag", "DOWNLOAD_URL=",
                      "WORKSHOP_FILE=", "CONSOLE_URL=http://0.0.0.0:10083", "OC_VERSION=", "ODO_VERSION=",
                      "KUBECTL_VERSION=", "WORKSHOP_VARS=" + text])
    ensures var spec := SpecOf(w);
            BookbagStage.QuoteFree(spec) ==>
              BookbagStage.ReadVars(text) ==
              [("OPENSHIFT_CONSOLE_URL", spec.consoleUrl), ("APPS_HOSTNAME_SUFFIX", spec.suffix), ("USER_ID", Dec(id)),
               ("OPENSHIFT_PASSWORD", spec.password), ("CHE_URL", "http://codeready-workspaces." + spec.suffix),
               ("GIT_URL", "https://gitea-server-gitea." + spec.suffix),
               ("JAEGER_URL", "https://jaeger-istio-system." + spec.suffix),
               ("KIALI_URL", "https://kiali-istio-system." + spec.suffix),
               ("KIBANA_URL", "https://kibana-openshift-logging." + spec.suffix),
               ("GITOPS_URL", "https://argocd-server-argocd." + spec.suffix),
               ("WORKSHOP_GIT_REPO", spec.gitUrl), ("WORKSHOP_GIT_REF", spec.gitRef)]
  {
    var spec := SpecOf(w);
    text := BookbagStage.VarsText(BookbagStage.Vars(spec, id));
    hide Pass, BuildStart, MainPlan, BookbagStage.VarsText, BookbagStage.ReadVars, Dec, SpecOf;
    BookbagSynced(w, ch, id);
    if BookbagStage.QuoteFree(spec) { BookbagStage.VarsReadBack(spec, id); }
  }

  lemma BookbagSynced(w: World, ch: Choice, id: nat)
    requires Completes(w, ch) && SpecOf(w).bookbagEnabled && 1 <= id <= SpecOf(w).Seats()
    ensures var spec, v := SpecOf(w), Pass(w, ch).w.store;
            var k := Key(Deployment, "workshop-guides", BookbagStage.Name(id));
            k in v && v[k] == BookbagStage.Environment(spec, id)
  {
    hide Pass, BuildStart, MainPlan, BookbagStage.Environment, BookbagStage.Name;
    var spec := SpecOf(w);
    var b := BookbagStage.Block(spec, id);
    assert BookbagStage.Blocks(spec)[id - 1] == b && b in BookbagStage.Blocks(spec) && b[5] in b;
    BookbagStage.TheLoop(spec).InPlan(b[5]);
    ThirdPart(spec, ch.guides, b[5]);
    SyncedExactly(w, ch, b[5]);
  }

  lemma ThirdPart(spec: Spec, order: seq<string>, s: Step)
    requires s in BookbagStage.Stage(spec)
    ensures s in MainPlan(spec, order)
  {
    hide BookbagStage.Stage;
    InStage(spec, order, 2, s);
  }

  /* ---------- GitOps ---------- */

  /** A user's AppProject has the project as its only destination, and Argo CD's controller manages it. */
  lemma UserGitOps(w: World, ch: Choice, id: nat)
    requires Completes(w, ch) && SpecOf(w).gitopsEnabled && 1 <= id <= SpecOf(w).Seats()
    ensures var v, project := Pass(w, ch).w.store, SpecOf(w).staging + Dec(id);
            && Key(AppProject, "argocd", project) in v && Key(RoleBinding, project, "argocd-manager") in v
            && v[Key(AppProject, "argocd", project)] == Names([project])
            && v[Key(RoleBinding, project, "argocd-manager")]
               == Names(["system:serviceaccount:argocd:argocd-argocd-application-controller"])
  {
    hide Pass, BuildStart, MainPlan, Dec;
    var spec := SpecOf(w);
    var b := GitOpsStage.Block(spec.staging, id);
    assert GitOpsStage.Blocks(spec)[id - 1] == b;
    UserPart(spec, ch.guides, id, b[0]);
    UserPart(spec, ch.guides, id, b[2]);
    SyncedExactly(w, ch, b[0]);
    SyncedExactly(w, ch, b[2]);
  }

  lemma UserPart(spec: Spec, order: seq<string>, id: nat, s: Step)
    requires spec.gitopsEnabled && 1 <= id <= spec.Seats() && s in GitOpsStage.Block(spec.staging, id)
    ensures s in MainPlan(spec, order)
  {
    hide GitOpsStage.Block;
    var blocks := GitOpsStage.Blocks(spec);
    assert s in blocks[id - 1];
    InFlat(blocks, 0, s);
    FifthStage(spec, order, s);
  }

  /** Every user may log in. */
  lemma AccountsHaveUsers(w: World, ch: Choice, id: nat)
    requires Completes(w, ch) && SpecOf(w).gitopsEnabled && 1 <= id <= SpecOf(w).Seats()
    ensures var v, k := Pass(w, ch).w.store, Key(ConfigMap, "argocd", "argocd-cm");
            && k in v && v[k].Table? && "accounts.user" + Dec(id) in v[k].data
            && v[k].data["accounts.user" + Dec(id)] == "login"
  {
    hide Pass, BuildStart, MainPlan, GitOpsStage.Accounts, Dec;
    var spec := SpecOf(w);
    KeptObjects(w, ch);
    GitOpsStage.AccountsExact(spec.Seats(), GitOpsStage.Account(id));
    AccountKept(spec, w.store, GitOpsStage.Account(id));
  }

  lemma AccountKept(spec: Spec, store: map<Key, Obj>, account: string)
    requires account in GitOpsStage.Accounts(spec.Seats()) && GitOpsStage.Accounts(spec.Seats())[account] == "login"
    ensures var o := Left(AccountsStep(spec), store);
            o.Table? && account in o.data && o.data[account] == "login"
  {
    hide GitOpsStage.Accounts;
    var want := GitOpsStage.Accounts(spec.Seats());
    if GitOpsStage.ACCOUNTS in store && Fresh(Within, Table(want), store[GitOpsStage.ACCOUNTS]) {
      assert Lookup(store[GitOpsStage.ACCOUNTS].data, account) == want[account];
    }
  }

  /** The cluster configuration: whatever else was stored there, and these four entries. */
  lemma ConfigExact(w: World, ch: Choice)
    requires Completes(w, ch) && SpecOf(w).gitopsEnabled
    ensures var spec, v, k := SpecOf(w), Pass(w, ch).w.store, Key(Secret, "argocd", "argocd-default-cluster-config");
            && k in v
            && v[k] == Table((if k in w.store && w.store[k].Table? then w.store[k].data else map[])
                             + map["config" := "{\"tlsClientConfig\":{\"insecure\":false}}", "name" := "in-cluster",
                                   "namespaces" := GitOpsStage.NamespaceList(spec.staging, spec.Seats()),
                                   "server" := "https://kubernetes.default.svc"])
  {
    hide Pass, BuildStart, MainPlan, GitOpsStage.NamespaceList, OnlyBy;
    var spec := SpecOf(w);
    GitOpsSteps(spec, ch.guides);
    OnlyGitOps(spec, ch.guides);
    CompletedLeaves(w, ch, ConfigStep(spec));
    ConfigMerged(GitOpsStage.NamespaceList(spec.staging, spec.Seats()), w.store);
  }

  lemma ConfigMerged(list: string, store: map<Key, Obj>)
    ensures var k := GitOpsStage.CLUSTER_CONFIG;
            Left(SyncStep(k, Table(GitOpsStage.ClusterConfig(list)), Merged), store) ==
            Table((if k in store && store[k].Table? then store[k].data else map[])
                  + map["config" := "{\"tlsClientConfig\":{\"insecure\":false}}", "name" := "in-cluster",
                        "namespaces" := list, "server" := "https://kubernetes.default.svc"])
  {
    var want := GitOpsStage.ClusterConfig(list);
    assert want["name"] == "in-cluster" && Lookup(map[], "name") == "";
    assert !Contained(want, map[]);
    assert map[] + want == want;
  }

  /* ---------- Service mesh ---------- */

  /** The subjects of jaeger-users are user1 .. userN, behind Argo CD's controller exactly when GitOps is on; the
      members of the mesh are the projects of the users. */
  lemma MeshContents(w: World, ch: Choice)
    requires Completes(w, ch) && MeshOn(SpecOf(w))
    ensures var spec, v := SpecOf(w), Pass(w, ch).w.store;
            var binding, roll := Key(RoleBinding, "istio-system", "jaeger-users"),
                Key(MemberRoll, "istio-system", "default");
            && binding in v && v[binding].Names? && roll in v && v[roll].Names?
            && var subjects := v[binding].items;
               var first := if spec.gitopsEnabled then 1 else 0;
               && |subjects| == first + spec.Seats()
               && (spec.gitopsEnabled ==>
                    subjects[0] == "system:serviceaccount:argocd:argocd-argocd-application-controller")
               && (forall i :: 1 <= i <= spec.Seats() ==> subjects[first + i - 1] == "user" + Dec(i))
               && |v[roll].items| == spec.Seats()
               && forall i :: 1 <= i <= spec.Seats() ==> v[roll].items[i - 1] == spec.staging + Dec(i)
  {
    hide Pass, BuildStart, MainPlan, Dec;
    OverwrittenObjects(w, ch);
  }

  /** So are those of mesh-users when it is new; otherwise it is left alone. */
  lemma MeshUsersContents(w: World, ch: Choice)
    requires Completes(w, ch) && MeshOn(SpecOf(w))
    ensures var v, k := Pass(w, ch).w.store, Key(RoleBinding, "istio-system", "mesh-users");
            && k in v && Key(RoleBinding, "istio-system", "jaeger-users") in v
            && v[k] == if k in w.store then w.store[k] else v[Key(RoleBinding, "istio-system", "jaeger-users")]
  {
    hide Pass, BuildStart, MainPlan, MeshStage.Subjects, Left, GitOpsStage.ProjectNames;
    OverwrittenObjects(w, ch);
    KeptObjects(w, ch);
    MeshUsersLeft(SpecOf(w), w.store);
  }

  lemma MeshUsersLeft(spec: Spec, store: map<Key, Obj>)
    ensures var k := MeshStage.MESH_USERS;
            Left(MeshUsersStep(spec), store) ==
            if k in store then store[k] else Names(MeshStage.Subjects(spec, spec.Seats()))
  {
    hide MeshStage.Subjects;
  }

  /* ---------- Vault's security context ---------- */

  lemma NoContexts(spec: Spec, c: nat, k: Key)
    requires c < 6 && k in Components(spec)[c]
    ensures k.kind != SecurityContextConstraints
  {
    hide Portal, ProjectOf, BookbagOf, GitOps, MeshOf, Joined;
    if c == 0 { PortalKinds(spec, k); }
    else if c == 1 {
      InJoined(EachProject(spec.staging, spec.Seats()), 0, k);
      var j :| 0 <= j < spec.Seats() && k in EachProject(spec.staging, spec.Seats())[j];
      ProjectKinds(spec.staging, j + 1, k);
    }
    else if c == 2 {
      InJoined(EachBookbag(spec.Seats()), 0, k);
      var j :| 0 <= j < spec.Seats() && k in EachBookbag(spec.Seats())[j];
      BookbagKinds(j + 1, k);
    }
    else if c == 4 { GitOpsKinds(spec, k); }
    else if c == 5 { MeshKinds(spec.elasticChannel, k); }
  }

  lemma PortalKinds(spec: Spec, k: Key)
    requires k in Portal(spec)
    ensures k.kind != SecurityContextConstraints
  {
  }

  lemma ProjectKinds(staging: string, id: nat, k: Key)
    requires k in ProjectOf(staging, id)
    ensures k.kind != SecurityContextConstraints
  {
  }

  lemma BookbagKinds(id: nat, k: Key)
    requires k in BookbagOf(id)
    ensures k.kind != SecurityContextConstraints
  {
  }

  lemma GitOpsKinds(spec: Spec, k: Key)
    requires k in GitOps(spec.staging, spec.Seats())
    ensures k.kind != SecurityContextConstraints
  {
    hide Joined;
    var groups := EachGitOps(spec.staging, spec.Seats());
    InJoined(groups, 0, k);
    if k in Joined(groups, 0) {
      var j :| 0 <= j < |groups| && k in groups[j];
      assert k in GitOpsOf(spec.staging, j + 1);
    }
  }

  lemma MeshKinds(channel: string, k: Key)
    requires k in MeshOf(channel)
    ensures k.kind != SecurityContextConstraints
  {
  }

  /** None of the stages before Vault's makes a security context. */
  lemma StageNoContext(spec: Spec, order: seq<string>, j: nat, s: Step)
    requires j < 9 && s in Stages(spec, order)[j] && Makes(s).Some?
    ensures Makes(s).value.kind != SecurityContextConstraints
  {
    hide Stages, Made, Components, Makes;
    CountStages(spec, order);
    SevenComponents(spec);
    MadeStage(spec, order, j);
    InMade(Stages(spec, order)[j], Makes(s).value);
    if j < 4 || j == 5 || j == 7 {
      NoContexts(spec, if j < 4 then j else if j == 5 then 4 else 5, Makes(s).value);
    }
  }

  /** A completed run of the stages reaches the j-th in a world with the same security contexts. */
  lemma {:induction false} StagesReach(spec: Spec, order: seq<string>, i: nat, j: nat, w: World, a: Key, b: Key)
    returns (u: World)
    requires i <= j <= 9 && |Stages(spec, order)| == 11 && Run(Flat(Stages(spec, order), i), 0, w).r == Done
    requires a.kind == b.kind == SecurityContextConstraints
    ensures Run(Flat(Stages(spec, order), i), 0, w) == Run(Flat(Stages(spec, order), j), 0, u)
    ensures SameAt(w.store, u.store, a) && SameAt(w.store, u.store, b)
    decreases j - i
  {
    hide Stages, Run, Flat, Makes;
    var ss := Stages(spec, order);
    u := w;
    if i < j {
      StageLemma(ss, i, w);
      assert Building(ss[i]) by { StageBuilding(spec, order, i); }
      forall h | 0 <= h < |ss[i]| && Makes(ss[i][h]).Some?
        ensures Makes(ss[i][h]).value.kind != SecurityContextConstraints
      {
        StageNoContext(spec, order, i, ss[i][h]);
      }
      RunFrame(ss[i], w, a);
      RunFrame(ss[i], w, b);
      u := StagesReach(spec, order, i + 1, j, Run(ss[i], 0, w).w, a, b);
    }
  }

  lemma CloneWrites(w: World, k: Key, source: Key, user: string)
    requires k !in w.store && CloneKey(w, k, source, user).r == Done
    ensures var v := CloneKey(w, k, source, user).w;
            source in w.store && k in v.store && v.store[k] == WithUser(w.store[source], user)
  {
    var g := DoGet(w, k);
    GetFacts(w, k);
    var s := DoGet(g.w, source);
    GetFacts(g.w, source);
    if s.out == Ok {
      CreateFacts(s.w, k, WithUser(w.store[source], user));
    }
  }

  /** The server's plan: three objects, the copy, and the rest. */
  function Front(): Plan {
    VaultStage.ServerPlan()[..3]
  }

  function Back(): Plan {
    VaultStage.ServerPlan()[4..]
  }

  function Copy(): Step {
    CloneStep(VaultStage.CONTEXT, VaultStage.PRIVILEGED, VaultStage.AccountUser(VaultStage.VAULT))
  }

  lemma ServerParts()
    ensures VaultStage.ServerPlan() == Front() + ([Copy()] + Back())
  {
    var p := VaultStage.ServerPlan();
    assert p == p[..3] + ([p[3]] + p[4..]);
  }

  lemma FrontKeeps(w: World)
    ensures var v := Run(Front(), 0, w).w;
            SameAt(w.store, v.store, VaultStage.CONTEXT) && SameAt(w.store, v.store, VaultStage.PRIVILEGED)
  {
    var p := Front();
    assert Building(p);
    forall j | 0 <= j < |p|
      ensures Makes(p[j]) != Some(VaultStage.CONTEXT) && Makes(p[j]) != Some(VaultStage.PRIVILEGED)
    {
    }
    hide Front, Run;
    RunFrame(p, w, VaultStage.CONTEXT);
    RunFrame(p, w, VaultStage.PRIVILEGED);
  }

  lemma BackKeeps(w: World)
    requires VaultStage.CONTEXT in w.store
    ensures var v := Run(Back(), 0, w).w;
            VaultStage.CONTEXT in v.store && v.store[VaultStage.CONTEXT] == w.store[VaultStage.CONTEXT]
  {
    var p := Back();
    assert Building(p) && forall j :: 0 <= j < |p| ==> !p[j].SyncStep?;
    hide Back, Run;
    RunKeeps(p, 0, w);
  }

  /** What the server's plan leaves when the context is new. */
  lemma ServerCopies(w: World)
    requires VaultStage.CONTEXT !in w.store && Run(VaultStage.ServerPlan(), 0, w).r == Done
    ensures var v := Run(VaultStage.ServerPlan(), 0, w).w;
            && VaultStage.PRIVILEGED in w.store && VaultStage.CONTEXT in v.store
            && v.store[VaultStage.CONTEXT]
               == WithUser(w.store[VaultStage.PRIVILEGED], VaultStage.AccountUser(VaultStage.VAULT))
  {
    hide VaultStage.ServerPlan, Front, Back, Do, Run, WithUser;
    ServerParts();
    RunConcat(Front(), [Copy()] + Back(), 0, w);
    FrontKeeps(w);
    var u := Run(Front(), 0, w).w;
    RunConcat([Copy()], Back(), 0, u);
    UserStage.OneStep(Copy(), u);
    DoClone(Copy(), u);
    CloneWrites(u, VaultStage.CONTEXT, VaultStage.PRIVILEGED, VaultStage.AccountUser(VaultStage.VAULT));
    BackKeeps(Do(Copy(), u).w);
  }

  lemma DoClone(s: Step, w: World)
    requires s.CloneStep?
    ensures Do(s, w) == CloneKey(w, s.key, s.source, s.user)
  {
  }

  /** The stage leaves it to whoever made it first. */
  lemma VaultCopies(spec: Spec, w: World)
    requires spec.vaultEnabled && VaultStage.CONTEXT !in w.store && Run(VaultStage.Stage(spec), 0, w).r == Done
    ensures var v := Run(VaultStage.Stage(spec), 0, w).w;
            && VaultStage.PRIVILEGED in w.store && VaultStage.CONTEXT in v.store
            && v.store[VaultStage.CONTEXT]
               == WithUser(w.store[VaultStage.PRIVILEGED], VaultStage.AccountUser(VaultStage.VAULT))
  {
    var p := VaultStage.AgentPlan();
    assert Building(p) && forall h :: 0 <= h < |p| ==> !p[h].SyncStep?;
    hide VaultStage.ServerPlan, VaultStage.AgentPlan, Run, WithUser;
    RunConcat(VaultStage.ServerPlan(), p, 0, w);
    ServerCopies(w);
    RunKeeps(p, 0, Run(VaultStage.ServerPlan(), 0, w).w);
  }

  lemma LastStages(spec: Spec, order: seq<string>)
    ensures var ss := Stages(spec, order);
            |ss| == 11 && ss[9] == VaultStage.Stage(spec) && ss[10] == [ForeignStep("certmanager")]
  {
    hide PortalStage.Stage, ProjectStage.Stage, BookbagStage.Stage, NexusStage.Stage, GitOpsStage.Stage,
         MeshStage.Stage, VaultStage.Stage;
  }

  lemma MainCopies(spec: Spec, order: seq<string>, w: World)
    requires spec.vaultEnabled && VaultStage.CONTEXT !in w.store && Run(MainPlan(spec, order), 0, w).r == Done
    ensures var v := Run(MainPlan(spec, order), 0, w).w;
            && VaultStage.PRIVILEGED in w.store && VaultStage.CONTEXT in v.store
            && v.store[VaultStage.CONTEXT]
               == WithUser(w.store[VaultStage.PRIVILEGED], VaultStage.AccountUser(VaultStage.VAULT))
  {
    var ss := Stages(spec, order);
    LastStages(spec, order);
    hide Stages, Run, Flat, VaultStage.Stage, WithUser, VaultStage.AccountUser;
    var u := StagesReach(spec, order, 0, 9, w, VaultStage.CONTEXT, VaultStage.PRIVILEGED);
    StageLemma(ss, 9, u);
    VaultCopies(spec, u);
    var v := Run(ss[9], 0, u).w;
    StageLemma(ss, 10, v);
    RunKeeps(ss[10], 0, v);
    EndOfStages(ss, Run(ss[10], 0, v).w);
  }

  /** A completed pass that makes Vault's security context has copied the privileged one: its users in their order, and
      the server's account once. */
  lemma ContextCopied(w: World, ch: Choice)
    requires Completes(w, ch) && SpecOf(w).vaultEnabled && Key(SecurityContextConstraints, "", "vault") !in w.store
    ensures var v, k := Pass(w, ch).w.store, Key(SecurityContextConstraints, "", "vault");
            var source, account := Key(SecurityContextConstraints, "", "privileged"),
                "system:serviceaccount:vault:vault";
            && source in w.store && k in v
            && var users := if w.store[source].Names? then w.store[source].items else [];
               v[k] == Names(if account in users then users else users + [account])
  {
    hide Pass, BuildStart, UserStage.Stage, MainPlan, Run, UserSpace;
    BuildStartFacts(w, ch);
    var spec, b := SpecOf(w), BuildStart(w).value.1;
    var u := UserStage.Stage(spec, ch.users, b);
    ContextOutside();
    UserStageAvoids(spec, ch.users, b, VaultStage.CONTEXT);
    UserStageAvoids(spec, ch.users, b, VaultStage.PRIVILEGED);
    MainCopies(spec, ch.guides, u.w);
    ServerAccount();
    hide VaultStage.AccountUser;
  }

  lemma ServerAccount()
    ensures VaultStage.AccountUser(VaultStage.VAULT) == "system:serviceaccount:vault:vault"
  {
  }

  lemma ContextOutside()
    ensures !UserSpace(VaultStage.CONTEXT) && !UserSpace(VaultStage.PRIVILEGED)
  {
  }
}
