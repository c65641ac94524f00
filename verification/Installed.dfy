/** Passes against the catalogue: what appears, in which order, what is left out, and what a completed pass has done. */
module Installed {
  import opened World
  import opened Steps
  import opened Gates
  import opened Scans
  import opened Plans
  import opened Progress
  import opened Frame
  import opened Reconcile
  import opened Finalizer
  import opened MainFacts
  import opened Runs
  import opened GateRuns
  import opened Counts
  import opened Inventory
  import opened Strings = Text
  import Policy
  import CleanPass
  import UserStage
  import PortalStage
  import ProjectStage
  import BookbagStage
  import NexusStage
  import GitOpsStage
  import MeshStage
  import VaultStage

  /* ---------- Which objects appear ---------- */

  lemma MainAdds(spec: Spec, order: seq<string>, w: World, k: Key)
    ensures var a := Run(MainPlan(spec, order), 0, w);
            && (k in w.store ==> k in a.w.store)
            && (k in a.w.store ==> k in w.store || k in Catalogue(spec))
            && (a.r == Done && k in Catalogue(spec) ==> k in a.w.store)
  {
    hide MainPlan, Run, Catalogue, Made;
    var p := MainPlan(spec, order);
    MainFine(spec, order);
    MainMade(spec, order);
    InMade(p, k);
    RunKeeps(p, 0, w);
    if Run(p, 0, w).r == Done && k in Catalogue(spec) {
      var s :| s in p && Makes(s) == Some(k);
      var j :| 0 <= j < |p| && p[j] == s;
      RunMade(p, j, w);
    }
  }

  /** Whatever fails, and outside the user stage's objects: a pass adds only what the catalogue of its spec lists, and
      unless it deletes it removes nothing. */
  lemma AddsOnlyListed(w: World, ch: Choice, k: Key)
    requires !UserSpace(k)
    ensures k in Pass(w, ch).w.store ==> k in w.store || (BuildStart(w).Some? && k in Catalogue(SpecOf(w)))
    ensures !Deletes(w) && k in w.store ==> k in Pass(w, ch).w.store
  {
    hide Pass, BuildStart, Deletes, Finalize, DoGetWorkshop, Foreign, UserStage.Stage, MainPlan, Run, Catalogue,
         UserSpace;
    if BuildStart(w).Some? {
      BuildStartFacts(w, ch);
      var spec, b := SpecOf(w), BuildStart(w).value.1;
      UserStageAvoids(spec, ch.users, b, k);
      MainAdds(spec, ch.guides, UserStage.Stage(spec, ch.users, b).w, k);
    } else if Deletes(w) {
      DeletingPass(w, ch);
      FinalizeShrinks(DoGetWorkshop(w).w.cr.value, ch, Foreign(DoGetWorkshop(w).w, "console").w);
    } else {
      IdlePass(w, ch);
    }
  }

  /** After a completed pass exactly the objects that were there before, and those of the catalogue, are there. */
  lemma CompletedInstalls(w: World, ch: Choice, k: Key)
    requires Completes(w, ch) && !UserSpace(k)
    ensures k in Pass(w, ch).w.store <==> k in w.store || k in Catalogue(SpecOf(w))
  {
    hide Pass, BuildStart, UserStage.Stage, MainPlan, Run, Catalogue, UserSpace;
    BuildStartFacts(w, ch);
    var spec, b := SpecOf(w), BuildStart(w).value.1;
    UserStageAvoids(spec, ch.users, b, k);
    MainAdds(spec, ch.guides, UserStage.Stage(spec, ch.users, b).w, k);
  }

  /** So every component that is on is there after a completed pass, and the portal always. */
  lemma ComponentsInstalled(w: World, ch: Choice, c: nat, k: Key)
    requires Completes(w, ch) && c < 7 && k in Components(SpecOf(w))[c]
    ensures k in Pass(w, ch).w.store
  {
    hide Pass, BuildStart, Components, UserSpace;
    var spec := SpecOf(w);
    assert |Components(spec)| == 7 by { SevenComponents(spec); }
    InJoined(Components(spec), 0, k);
    hide Joined;
    ListedOutside(spec, k);
    CompletedInstalls(w, ch, k);
  }

  lemma SevenComponents(spec: Spec)
    ensures |Components(spec)| == 7
  {
  }

  lemma ListedOutside(spec: Spec, k: Key)
    requires k in Catalogue(spec)
    ensures !UserSpace(k)
  {
    hide MainPlan, Catalogue, Made, UserSpace;
    MainFine(spec, []);
    MainMade(spec, []);
    InMade(MainPlan(spec, []), k);
  }

  /* ---------- In which order ---------- */

  /** The step that makes the j-th object of a plan. */
  lemma {:induction false} MakerOf(p: Plan, j: nat) returns (c: nat)
    requires j < |Made(p)|
    ensures c < |p| && Makes(p[c]) == Some(Made(p)[j]) && Made(p[..c]) == Made(p)[..j]
  {
    var own := if Makes(p[0]).Some? then [Makes(p[0]).value] else [];
    if j < |own| {
      c := 0;
    } else {
      var d := MakerOf(p[1..], j - |own|);
      c := d + 1;
      assert p[..c] == [p[0]] + p[1..][..d];
      MadeFirst(p[0], p[1..][..d]);
      assert Made(p) == own + Made(p[1..]);
      assert Made(p)[..j] == own + Made(p[1..])[..j - |own|];
    }
  }

  lemma MadeFirst(s: Step, rest: Plan)
    ensures Made([s] + rest) == (if Makes(s).Some? then [Makes(s).value] else []) + Made(rest)
  {
    assert ([s] + rest)[1..] == rest;
  }

  lemma RunInOrder(p: Plan, w: World, i: nat, j: nat)
    requires Building(p) && i < j < |Made(p)| && Made(p)[j] !in Made(p)[..j]
    requires Made(p)[j] !in w.store && Made(p)[j] in Run(p, 0, w).w.store
    ensures Made(p)[i] in Run(p, 0, w).w.store
  {
    hide Made, Run, Makes;
    var c := MakerOf(p, j);
    var a, b := p[..c], p[c..];
    assert p == a + b;
    assert Made(a)[i] == Made(p)[i];
    InMade(a, Made(p)[i]);
    var s :| s in a && Makes(s) == Some(Made(p)[i]);
    var h :| 0 <= h < |a| && a[h] == s;
    forall x | 0 <= x < |a| ensures Makes(a[x]) != Some(Made(p)[j]) {
      assert a[x] in a;
      InMade(a, Made(p)[j]);
    }
    RunBefore(a, b, w, Made(p)[j], h);
  }

  /** Whatever fails: if an object of the catalogue is new after a pass, everything the catalogue lists before it is
      there. */
  lemma InOrder(w: World, ch: Choice, i: nat, j: nat)
    requires BuildStart(w).Some?
    requires var all := Catalogue(SpecOf(w)); i < j < |all| && all[j] !in all[..j]
    requires var k := Catalogue(SpecOf(w))[j]; k !in w.store && k in Pass(w, ch).w.store
    ensures Catalogue(SpecOf(w))[i] in Pass(w, ch).w.store
  {
    hide Pass, BuildStart, UserStage.Stage, MainPlan, Run, Catalogue, UserSpace, Made;
    var spec, b, k := SpecOf(w), BuildStart(w).value.1, Catalogue(SpecOf(w))[j];
    BuildStartFacts(w, ch);
    ListedOutside(spec, k);
    UserStageAvoids(spec, ch.users, b, k);
    MainFine(spec, ch.guides);
    MainMade(spec, ch.guides);
    RunInOrder(MainPlan(spec, ch.guides), UserStage.Stage(spec, ch.users, b).w, i, j);
  }

  /* ---------- What is switched off ---------- */

  /** Which component an object belongs to can be read off its key. */
  function Home(k: Key): nat {
    if k.name == "redis" || k.name == "portal" then 0
    else if k.kind == Namespace then
      if k.name == "workshop-guides" then 2
      else if k.name == "nexus" then 3
      else if k.name == "argocd" then 4
      else if k.name == "openshift-operators-redhat" || k.name == "istio-system" then 5
      else if k.name == "vault" then 6
      else 1
    else if k.ns == "workshop-guides" then 2
    else if k.ns == "nexus" || k.name == "nexus-operator" || k.name == "nexus.gpte.opentlc.com" then 3
    else if k.ns == "argocd" || k.name == "argocd-manager" || k.name == "openshift-gitops-operator" then 4
    else if k.ns == "istio-system" || k.kind == Subscription then 5
    else if k.name != "" && k.name[0] == 'v' then 6
    else 1
  }

  lemma HomePortal(spec: Spec, k: Key)
    requires k in Portal(spec)
    ensures Home(k) == 0
  {
  }

  lemma NumberedNames(staging: string, id: nat)
    ensures var name := staging + Dec(id);
            && name != "redis" && name != "portal" && name != "workshop-guides" && name != "nexus" && name != "argocd"
            && name != "openshift-operators-redhat" && name != "istio-system" && name != "vault"
            && name != "nexus-operator" && name != "nexus.gpte.opentlc.com"
  {
    hide Dec;
    NotNumbered("redis", staging, id);
    NotNumbered("portal", staging, id);
    NotNumbered("workshop-guides", staging, id);
    NotNumbered("nexus", staging, id);
    NotNumbered("argocd", staging, id);
    NotNumbered("openshift-operators-redhat", staging, id);
    NotNumbered("istio-system", staging, id);
    NotNumbered("vault", staging, id);
    NotNumbered("nexus-operator", staging, id);
    NotNumbered("nexus.gpte.opentlc.com", staging, id);
  }

  lemma HomeProject(staging: string, id: nat, k: Key)
    requires k in ProjectOf(staging, id)
    ensures Home(k) == 1
  {
    hide Dec;
    NumberedNames(staging, id);
    assert k.kind != Namespace ==> k.kind == RoleBinding && k.ns == staging + Dec(id) && k.name[0] == 'u';
    assert "redis"[0] == 'r' && "portal"[0] == 'p' && "nexus-operator"[0] == 'n' && "nexus.gpte.opentlc.com"[0] == 'n'
      && "argocd-manager"[0] == 'a' && "openshift-gitops-operator"[0] == 'o';
  }

  lemma HomeBookbag(id: nat, k: Key)
    requires k in BookbagOf(id)
    ensures Home(k) == 2
  {
    hide Dec;
    assert k.kind != Namespace ==> k.ns == "workshop-guides" && k.name[0] == 'u';
    assert "redis"[0] == 'r' && "portal"[0] == 'p';
  }

  lemma HomeNexus(k: Key)
    requires k in NEXUS
    ensures Home(k) == 3
  {
  }

  lemma HomeUserGitOps(staging: string, id: nat, k: Key)
    requires k in GitOpsOf(staging, id)
    ensures Home(k) == 4
  {
    hide Dec;
    NumberedNames(staging, id);
  }

  lemma HomeGitOps(k: Key)
    requires k in GITOPS_FIRST || k in GITOPS_LAST
    ensures Home(k) == 4
  {
  }

  lemma MeshShape(channel: string, k: Key)
    requires k in MeshOf(channel)
    ensures if k.kind == Namespace then k.name == "openshift-operators-redhat" || k.name == "istio-system"
            else k.name != "" && k.name[0] in {'e', 'j', 'k', 's', 'm', 'b', 'd'}
                 && (k.ns == "istio-system" || k.kind == Subscription)
                 && (k.ns == "istio-system" || k.ns == "openshift-operators" || k.ns == "openshift-operators-redhat")
  {
    assert ("elasticsearch-operator-" + channel)[0] == 'e';
  }

  /** None of these starts with a letter of the mesh's or Vault's own names. */
  lemma OtherNames(name: string)
    requires name != "" && name[0] in {'e', 'j', 'k', 's', 'm', 'b', 'd', 'v'}
    ensures name != "redis" && name != "portal" && name != "nexus-operator" && name != "nexus.gpte.opentlc.com"
    ensures name != "argocd-manager" && name != "openshift-gitops-operator"
  {
    assert "redis"[0] == 'r' && "portal"[0] == 'p' && "nexus-operator"[0] == 'n' && "nexus.gpte.opentlc.com"[0] == 'n'
      && "argocd-manager"[0] == 'a' && "openshift-gitops-operator"[0] == 'o';
  }

  lemma HomeMesh(channel: string, k: Key)
    requires k in MeshOf(channel)
    ensures Home(k) == 5
  {
    MeshShape(channel, k);
    MeshShaped(k);
  }

  lemma MeshShaped(k: Key)
    requires if k.kind == Namespace then k.name == "openshift-operators-redhat" || k.name == "istio-system"
             else k.name != "" && k.name[0] in {'e', 'j', 'k', 's', 'm', 'b', 'd'}
                  && (k.ns == "istio-system" || k.kind == Subscription)
                  && (k.ns == "istio-system" || k.ns == "openshift-operators" || k.ns == "openshift-operators-redhat")
    ensures Home(k) == 5
  {
    if k.kind != Namespace { OtherNames(k.name); }
  }

  lemma VaultShape(j: nat)
    requires j < |VAULT|
    ensures var k := VAULT[j];
            && k.name != "" && k.name[0] == 'v' && (k.ns == "" || k.ns == "vault") && k.kind != Subscription
            && (k.kind == Namespace ==> k.name == "vault")
  {
  }

  lemma HomeShaped(k: Key)
    requires k.name != "" && k.name[0] == 'v' && (k.ns == "" || k.ns == "vault") && k.kind != Subscription
    requires k.kind == Namespace ==> k.name == "vault"
    ensures Home(k) == 6
  {
    OtherNames(k.name);
  }

  lemma HomeVault(k: Key)
    requires k in VAULT
    ensures Home(k) == 6
  {
    var j :| 0 <= j < |VAULT| && VAULT[j] == k;
    VaultShape(j);
    HomeShaped(k);
  }

  lemma HomeOf(spec: Spec, c: nat, k: Key)
    requires c < 7 && k in Components(spec)[c]
    ensures Home(k) == c
  {
    hide Home, Portal, ProjectOf, BookbagOf, GitOpsOf, MeshOf, Joined;
    if c == 0 { HomePortal(spec, k); }
    else if c == 1 {
      var groups := EachProject(spec.staging, spec.Seats());
      InJoined(groups, 0, k);
      var j :| 0 <= j < |groups| && k in groups[j];
      HomeProject(spec.staging, j + 1, k);
    }
    else if c == 2 {
      var groups := EachBookbag(spec.Seats());
      InJoined(groups, 0, k);
      var j :| 0 <= j < |groups| && k in groups[j];
      HomeBookbag(j + 1, k);
    }
    else if c == 3 { HomeNexus(k); }
    else if c == 4 { HomeAllGitOps(spec, k); }
    else if c == 5 { HomeMesh(spec.elasticChannel, k); }
    else { HomeVault(k); }
  }

  lemma HomeAllGitOps(spec: Spec, k: Key)
    requires k in GitOps(spec.staging, spec.Seats())
    ensures Home(k) == 4
  {
    hide Home, GitOpsOf, Joined;
    var groups := EachGitOps(spec.staging, spec.Seats());
    InJoined(groups, 0, k);
    if k in Joined(groups, 0) {
      var j :| 0 <= j < |groups| && k in groups[j];
      HomeUserGitOps(spec.staging, j + 1, k);
    } else {
      HomeGitOps(k);
    }
  }

  /** The spec with everything switched on. */
  function AllOn(spec: Spec): Spec {
    spec.(projectEnabled := true, bookbagEnabled := true, nexusEnabled := true, gitopsEnabled := true,
          meshEnabled := true, serverlessEnabled := true, vaultEnabled := true)
  }

  /** An object of a component is in the catalogue only as part of that component. */
  lemma OwnComponent(spec: Spec, c: nat, k: Key)
    requires c < 7 && k in Components(AllOn(spec))[c]
    ensures k in Catalogue(spec) <==> k in Components(spec)[c]
  {
    hide Components, Home, Joined;
    SevenComponents(spec);
    SevenComponents(AllOn(spec));
    HomeOf(AllOn(spec), c, k);
    InJoined(Components(spec), 0, k);
    if k in Catalogue(spec) {
      var d :| 0 <= d < 7 && k in Components(spec)[d];
      HomeOf(spec, d, k);
    }
  }

  /** Whatever fails: a pass whose spec leaves a component out adds none of its objects. */
  lemma SwitchedOff(w: World, ch: Choice, c: nat, k: Key)
    requires BuildStart(w).Some? && c < 7 && Components(SpecOf(w))[c] == []
    requires k in Components(AllOn(SpecOf(w)))[c] && k !in w.store
    ensures k !in Pass(w, ch).w.store
  {
    hide Pass, BuildStart, Components, UserSpace, Catalogue;
    var spec := SpecOf(w);
    OwnComponent(spec, c, k);
    assert k in Catalogue(AllOn(spec)) by {
      SevenComponents(AllOn(spec));
      InJoined(Components(AllOn(spec)), 0, k);
      CatalogueIs(AllOn(spec));
    }
    ListedOutside(AllOn(spec), k);
    AddsOnlyListed(w, ch, k);
  }

  lemma CatalogueIs(spec: Spec)
    ensures Catalogue(spec) == Joined(Components(spec), 0)
  {
  }

  /* ---------- What a completed pass has done ---------- */

  /** One of the entries since then. */
  ghost predicate Since(a: seq<Entry>, b: seq<Entry>, e: Entry) {
    exists x :: |a| <= x < |b| && b[x] == e
  }

  /** A foreign stage has been called and answered. */
  ghost predicate Answered(a: seq<Entry>, b: seq<Entry>, name: string) {
    exists x :: |a| <= x < |b| && b[x].Called? && b[x].verb == Verb.Watch && b[x].key == Key(Workshop, "", name)
                && b[x].out == Ok
  }

  /** A name numbered from this on has been asked for and reported missing, and if nothing failed, all those before it
      are there. */
  ghost predicate FoundMissing(w: World, v: World, kind: Kind, ns: string, base: string, from: nat) {
    exists x, j: nat :: |w.trail| <= x < |v.trail| && from <= j && v.trail[x].Called? && v.trail[x].verb == Verb.Get
                        && v.trail[x].out == NotFound && v.trail[x].key == Key(kind, ns, base + Dec(j))
                        && (Calm(w) ==> forall i: nat :: from <= i < j ==> Key(kind, ns, base + Dec(i)) in v.store)
  }

  ghost predicate Evident(w: World, v: World, s: Step) {
    match s
    case ApproveStep(sub, _) => Since(w.trail, v.trail, Cleared(sub))
    case AwaitStep(dep) => Since(w.trail, v.trail, Observed(dep, 1))
    case ForeignStep(name) => Answered(w.trail, v.trail, name)
    case ScanStep(kind, ns, base, from) => FoundMissing(w, v, kind, ns, base, from)
    case _ => true
  }

  lemma StepEvident(s: Step, w: World)
    requires Do(s, w).r == Done
    ensures Evident(w, Do(s, w).w, s)
  {
    match s
    case ApproveStep(sub, csv) => ApproveEvident(w, sub, csv);
    case AwaitStep(dep) => GateExact(w, dep);
    case ForeignStep(name) => ForeignEvident(w, name);
    case ScanStep(kind, ns, base, from) => ScanEvident(w, kind, ns, base, from);
    case _ =>
  }

  lemma ScanEvident(w: World, kind: Kind, ns: string, base: string, from: nat)
    ensures FoundMissing(w, ScanFrom(w, kind, ns, base, from), kind, ns, base, from)
  {
    hide ScanFrom, ScanRounds, Dec;
    var j := ScanStops(w, kind, ns, base, from);
    ScanLonger(w, kind, ns, base, from);
    ScanBound(w, kind, ns, base, from);
    var v := ScanFrom(w, kind, ns, base, from);
    var e := v.trail[|v.trail| - 1];
    assert e.key == Key(kind, ns, base + Dec(j));
    if Calm(w) {
      forall i: nat | from <= i < j ensures Key(kind, ns, base + Dec(i)) in v.store {
        assert GoesOn(w, kind, ns, base, from, i);
        if i - from < |w.script| { CalmTick(w.script, i - from); }
      }
    }
  }

  lemma {:induction false} CalmTick(script: seq<Tick>, i: nat)
    requires Faulty(script) == 0 && i < |script|
    ensures script[i].fault == Clean
  {
    if i > 0 {
      CalmTick(script[1..], i - 1);
    }
  }

  /** The scan makes at least one call. */
  lemma ScanLonger(w: World, kind: Kind, ns: string, base: string, from: nat)
    ensures |ScanFrom(w, kind, ns, base, from).trail| > |w.trail|
  {
    var k := Numbered(kind, ns, base, from);
    GetLonger(w, k);
    ScanNext(w, kind, ns, base, from);
    hide ScanFrom, DoGet;
    if DoGet(w, k).out != NotFound {
      ScanBound(DoGet(w, k).w, kind, ns, base, from + 1);
    }
  }

  lemma GetLonger(w: World, k: Key)
    ensures |DoGet(w, k).w.trail| > |w.trail|
  {
    PopFacts(w);
  }

  lemma ApproveEvident(w: World, sub: Key, csv: string)
    requires Approve(w, sub, csv).r == Done
    ensures Since(w.trail, Approve(w, sub, csv).w.trail, Cleared(sub))
  {
    hide DoGet, DoGetPlan, DoApprovePlan;
    var g := DoGet(w, sub);
    GetTame(w, sub);
    var st := Status(g.w, sub);
    if Pending(st, csv) && st.ref.Some? {
      var plan := PlanKey(sub.ns, st.ref.value);
      var p := DoGetPlan(g.w, plan);
      GetPlanGrows(g.w, plan);
      ApprovePlanGrows(p.w, sub, csv, plan);
    }
    assert Approve(w, sub, csv).w.trail[|Approve(w, sub, csv).w.trail| - 1] == Cleared(sub);
  }

  lemma GetPlanGrows(w: World, plan: Key)
    ensures |DoGetPlan(w, plan).w.trail| >= |w.trail|
  {
    PopFacts(w);
  }

  lemma ApprovePlanGrows(w: World, sub: Key, csv: string, plan: Key)
    ensures |DoApprovePlan(w, sub, csv, plan).w.trail| >= |w.trail|
  {
    PopFacts(w);
  }

  lemma ForeignEvident(w: World, name: string)
    requires Foreign(w, name).r == Done
    ensures Answered(w.trail, Foreign(w, name).w.trail, name)
  {
    PopFacts(w);
    var v := Foreign(w, name).w;
    assert v.trail[|v.trail| - 1].Called?;
  }

  /** The later world knows what the earlier one knew. */
  ghost predicate Onward(w: World, v: World) {
    && w.trail <= v.trail && (Calm(w) ==> Calm(v))
    && forall k :: k in w.store ==> k in v.store
  }

  lemma OnwardThen(u: World, v: World, w: World)
    requires Onward(u, v) && Onward(v, w)
    ensures Onward(u, w)
  {
  }

  lemma EvidentWider(a: World, b: World, c: World, d: World, s: Step)
    requires Onward(a, b) && Onward(c, d) && b.trail <= c.trail && Evident(b, c, s)
    ensures Evident(a, d, s)
  {
  }

  lemma StepOnward(s: Step, w: World)
    requires Builder(s)
    ensures Onward(w, Do(s, w).w)
  {
    DoGrows(s, w);
    if Calm(w) { StepCalm(s, w); }
    StepFollows(s, w);
    hide Do;
  }

  lemma StepFollows(s: Step, w: World)
    ensures w.trail <= Do(s, w).w.trail
  {
    RunFollows([s], 0, w);
    UserStage.OneStep(s, w);
    hide Do, Run;
  }

  lemma RunOnward(p: Plan, i: nat, w: World)
    requires i <= |p| && Building(p)
    ensures Onward(w, Run(p, i, w).w)
  {
    RunKeeps(p, i, w);
    RunFollows(p, i, w);
    if Calm(w) { RunCalm(p, i, w); }
    hide Run;
  }

  lemma {:induction false} RunEvident(p: Plan, i: nat, w: World, s: Step)
    requires i <= |p| && Building(p) && Run(p, i, w).r == Done && s in p[i..]
    ensures Evident(w, Run(p, i, w).w, s)
    decreases |p| - i
  {
    hide Do, Evident, Onward;
    var a := Do(p[i], w);
    RunNext(p, i, w);
    StepOnward(p[i], w);
    hide Run, Building;
    assert p[i..] == [p[i]] + p[i + 1..];
    RunOnward(p, i + 1, a.w);
    if p[i] == s {
      StepEvident(s, w);
      EvidentNow(w, a.w, Run(p, i, w).w, s);
    } else {
      RunEvident(p, i + 1, a.w, s);
      EvidentBehind(w, a.w, Run(p, i, w).w, s);
    }
  }

  lemma EvidentNow(w: World, v: World, z: World, s: Step)
    requires Evident(w, v, s) && Onward(w, v) && Onward(v, z)
    ensures Evident(w, z, s)
  {
    EvidentWider(w, w, v, z, s);
  }

  lemma EvidentBehind(w: World, v: World, z: World, s: Step)
    requires Onward(w, v) && Onward(v, z) && Evident(v, z, s)
    ensures Evident(w, z, s)
  {
    EvidentWider(w, v, z, z, s);
  }

  lemma StageStart(w: World, ch: Choice)
    requires BuildStart(w).Some?
    ensures var u := UserStage.Stage(SpecOf(w), ch.users, BuildStart(w).value.1).w;
            w.trail <= u.trail && (Calm(w) ==> Calm(u))
  {
    hide BuildStart, Pass, UserStage.Stage;
    BuildStartFacts(w, ch);
    UserStageFollows(SpecOf(w), ch.users, BuildStart(w).value.1);
    if Calm(w) { CleanPass.StageCalm(SpecOf(w), ch.users, BuildStart(w).value.1); }
  }

  lemma EvidentFrom(w: World, u: World, z: World, s: Step)
    requires w.trail <= u.trail && (Calm(w) ==> Calm(u)) && Evident(u, z, s)
    ensures Evident(w, z, s)
  {
  }

  /** A completed pass has done every step of its plan. */
  lemma CompletedDid(w: World, ch: Choice, s: Step)
    requires Completes(w, ch) && s in MainPlan(SpecOf(w), ch.guides)
    ensures Evident(w, Pass(w, ch).w, s)
  {
    hide Pass, BuildStart, UserStage.Stage, MainPlan, Run, Evident;
    BuildStartFacts(w, ch);
    var spec, b := SpecOf(w), BuildStart(w).value.1;
    var p, u := MainPlan(spec, ch.guides), UserStage.Stage(spec, ch.users, b);
    assert p[0..] == p;
    MainFine(spec, ch.guides);
    RunEvident(p, 0, u.w, s);
    StageStart(w, ch);
    EvidentFrom(w, u.w, Pass(w, ch).w, s);
  }

  lemma InPart(spec: Spec, order: seq<string>, j: nat, i: nat)
    requires j < |Stages(spec, order)| && i < |Stages(spec, order)[j]|
    ensures Stages(spec, order)[j][i] in MainPlan(spec, order)
  {
    hide MainPlan, Stages;
    InStage(spec, order, j, Stages(spec, order)[j][i]);
  }

  lemma NexusDid(w: World, ch: Choice)
    requires Completes(w, ch) && SpecOf(w).nexusEnabled
    ensures Since(w.trail, Pass(w, ch).w.trail, Observed(Key(Deployment, "nexus", "nexus"), 1))
  {
    hide Pass, BuildStart, MainPlan, PortalStage.Stage, ProjectStage.Stage, BookbagStage.Stage, GitOpsStage.Stage,
         MeshStage.Stage, VaultStage.Stage;
    InPart(SpecOf(w), ch.guides, 3, 7);
    CompletedDid(w, ch, AwaitStep(Key(Deployment, "nexus", "nexus")));
  }

  lemma GitOpsDid(w: World, ch: Choice)
    requires Completes(w, ch) && SpecOf(w).gitopsEnabled
    ensures var a, b := w.trail, Pass(w, ch).w.trail;
            && Since(a, b, Cleared(Key(Subscription, "openshift-operators", "openshift-gitops-operator")))
            && Since(a, b, Observed(Key(Deployment, "openshift-operators", "gitops-operator"), 1))
            && Since(a, b, Observed(Key(Deployment, "argocd", "argocd-server"), 1))
  {
    hide Pass, BuildStart, MainPlan, PortalStage.Stage, ProjectStage.Stage, BookbagStage.Stage, NexusStage.Stage,
         MeshStage.Stage, VaultStage.Stage, GitOpsStage.Blocks, GitOpsStage.Accounts, GitOpsStage.NamespaceList,
         GitOpsStage.ClusterConfig, Policy.PolicyText, Evident;
    var spec := SpecOf(w);
    var o, c := GitOpsStage.Opening(spec), GitOpsStage.Closing(spec);
    GitOpsParts(spec, ch.guides, o[1]);
    GitOpsParts(spec, ch.guides, o[2]);
    GitOpsParts(spec, ch.guides, c[3]);
    CompletedDid(w, ch, o[1]);
    CompletedDid(w, ch, o[2]);
    CompletedDid(w, ch, c[3]);
    assert Evident(w, Pass(w, ch).w, o[1]);
    EvidentIs(w, Pass(w, ch).w, o[1]);
    EvidentIs(w, Pass(w, ch).w, o[2]);
    EvidentIs(w, Pass(w, ch).w, c[3]);
  }

  lemma EvidentIs(w: World, v: World, s: Step)
    requires Evident(w, v, s)
    ensures s.ApproveStep? ==> Since(w.trail, v.trail, Cleared(s.sub))
    ensures s.AwaitStep? ==> Since(w.trail, v.trail, Observed(s.dep, 1))
    ensures s.ForeignStep? ==> Answered(w.trail, v.trail, s.name)
    ensures s.ScanStep? ==> FoundMissing(w, v, s.kind, s.ns, s.base, s.from)
  {
  }

  lemma GitOpsParts(spec: Spec, order: seq<string>, s: Step)
    requires spec.gitopsEnabled && (s in GitOpsStage.Opening(spec) || s in GitOpsStage.Closing(spec))
    ensures s in MainPlan(spec, order)
  {
    hide MainPlan, GitOpsStage.Opening, GitOpsStage.Closing, GitOpsStage.Blocks;
    assert s in GitOpsStage.Stage(spec);
    FifthStage(spec, order, s);
  }

  lemma MeshParts(spec: Spec, order: seq<string>, s: Step)
    requires (spec.meshEnabled || spec.serverlessEnabled) && FromMesh(spec, s)
    ensures s in MainPlan(spec, order)
  {
    hide MainPlan, MeshStage.ElasticPlan, MeshStage.JaegerPlan, MeshStage.KialiPlan, MeshStage.GatePlan,
         MeshStage.ControlPlan;
    assert s in MeshStage.Stage(spec);
    SeventhStage(spec, order, s);
  }

  lemma SeventhStage(spec: Spec, order: seq<string>, s: Step)
    requires s in MeshStage.Stage(spec)
    ensures s in MainPlan(spec, order)
  {
    hide MeshStage.Stage;
    InStage(spec, order, 7, s);
  }

  lemma MeshDidOne(w: World, ch: Choice, s: Step)
    requires Completes(w, ch) && MeshOn(SpecOf(w)) && FromMesh(SpecOf(w), s)
    ensures s.ApproveStep? ==> Since(w.trail, Pass(w, ch).w.trail, Cleared(s.sub))
    ensures s.AwaitStep? ==> Since(w.trail, Pass(w, ch).w.trail, Observed(s.dep, 1))
  {
    hide Pass, BuildStart, MainPlan, FromMesh, Evident;
    MeshParts(SpecOf(w), ch.guides, s);
    CompletedDid(w, ch, s);
    EvidentIs(w, Pass(w, ch).w, s);
  }

  lemma MeshDid(w: World, ch: Choice)
    requires Completes(w, ch) && MeshOn(SpecOf(w))
    ensures var a, b, channel := w.trail, Pass(w, ch).w.trail, SpecOf(w).elasticChannel;
            && Since(a, b,
                     Cleared(Key(Subscription, "openshift-operators-redhat", "elasticsearch-operator-" + channel)))
            && Since(a, b, Cleared(Key(Subscription, "openshift-operators", "jaeger-product")))
            && Since(a, b, Cleared(Key(Subscription, "openshift-operators", "kiali-ossm")))
            && Since(a, b, Cleared(Key(Subscription, "openshift-operators", "servicemeshoperator")))
            && Since(a, b, Observed(Key(Deployment, "openshift-operators", "istio-operator"), 1))
  {
    hide Pass, BuildStart, MeshStage.ControlPlan;
    var spec := SpecOf(w);
    MeshDidOne(w, ch, MeshStage.ElasticPlan(spec)[2]);
    MeshDidOne(w, ch, MeshStage.JaegerPlan(spec)[1]);
    MeshDidOne(w, ch, MeshStage.KialiPlan(spec)[1]);
    MeshDidOne(w, ch, MeshStage.GatePlan(spec)[1]);
    MeshDidOne(w, ch, MeshStage.GatePlan(spec)[2]);
  }

  lemma ForeignDid(w: World, ch: Choice, j: nat, i: nat, name: string)
    requires Completes(w, ch) && j < |Stages(SpecOf(w), ch.guides)| && i < |Stages(SpecOf(w), ch.guides)[j]|
    requires Stages(SpecOf(w), ch.guides)[j][i] == ForeignStep(name)
    ensures Answered(w.trail, Pass(w, ch).w.trail, name)
  {
    hide Pass, BuildStart, MainPlan, Stages, Evident;
    InPart(SpecOf(w), ch.guides, j, i);
    CompletedDid(w, ch, ForeignStep(name));
    EvidentIs(w, Pass(w, ch).w, ForeignStep(name));
  }

  lemma ForeignsDid(w: World, ch: Choice)
    requires Completes(w, ch)
    ensures forall name :: name in ["gitea", "pipelines", "codeready", "serverless", "certmanager"] ==>
              Answered(w.trail, Pass(w, ch).w.trail, name)
  {
    hide Pass, BuildStart, PortalStage.Stage, ProjectStage.Stage, BookbagStage.Stage, NexusStage.Stage,
         GitOpsStage.Stage, MeshStage.Stage, VaultStage.Stage, Answered;
    ForeignDid(w, ch, 4, 0, "gitea");
    ForeignDid(w, ch, 4, 1, "pipelines");
    ForeignDid(w, ch, 6, 0, "codeready");
    ForeignDid(w, ch, 8, 0, "serverless");
    ForeignDid(w, ch, 10, 0, "certmanager");
  }

  /** The projects and bookbags of users that are no more have been looked for. */
  lemma ScansDid(w: World, ch: Choice)
    requires Completes(w, ch)
    ensures var spec, v := SpecOf(w), Pass(w, ch).w;
            && FoundMissing(w, v, Namespace, "", spec.staging, if spec.projectEnabled then spec.Seats() + 1 else 1)
            && FoundMissing(w, v, Deployment, "workshop-guides", "bookbag-",
                            if spec.bookbagEnabled then spec.Seats() + 1 else 1)
  {
    hide Pass, BuildStart, MainPlan, ProjectStage.Blocks, BookbagStage.Blocks, Evident, FoundMissing;
    var spec := SpecOf(w);
    var s, t := ProjectStage.TheLoop(spec).Scan(), BookbagStage.TheLoop(spec).Scan();
    ProjectStage.TheLoop(spec).InPlan(s);
    BookbagStage.TheLoop(spec).InPlan(t);
    LoopParts(spec, ch.guides, s, t);
    CompletedDid(w, ch, s);
    CompletedDid(w, ch, t);
    EvidentIs(w, Pass(w, ch).w, s);
    EvidentIs(w, Pass(w, ch).w, t);
  }

  lemma LoopParts(spec: Spec, order: seq<string>, s: Step, t: Step)
    requires s in ProjectStage.Stage(spec) && t in BookbagStage.Stage(spec)
    ensures s in MainPlan(spec, order) && t in MainPlan(spec, order)
  {
    hide ProjectStage.Stage, BookbagStage.Stage;
    InStage(spec, order, 1, s);
    InStage(spec, order, 2, t);
  }

  /** Every pass that builds has found the console route. */
  lemma ConsoleDid(w: World, ch: Choice)
    requires BuildStart(w).Some?
    ensures Answered(w.trail, Pass(w, ch).w.trail, "console")
  {
    hide DoGetWorkshop, Foreign, Build, DoUpdateWorkshop;
    var g := DoGetWorkshop(w);
    var s := Foreign(g.w, "console");
    ForeignEvident(g.w, "console");
    OpeningFacts(w);
    ArmFacts(g.w.cr.value, s.w);
    BuildFollows(g.w.cr.value.spec, ch, Arm(g.w.cr.value, s.w).w);
  }

  /* ---------- Foreign stages come before what is behind them ---------- */

  /** A new object that none of the stages i .. j makes: those stages are done. */
  lemma {:induction false} StagePassed(ss: seq<Plan>, i: nat, j: nat, w: World, k: Key, s: Step)
    requires i <= j < |ss| && s in ss[j] && forall h :: 0 <= h < |ss| ==> Building(ss[h])
    requires Building(Flat(ss, i)) && forall h, t :: i <= h <= j && t in ss[h] ==> Makes(t) != Some(k)
    requires k !in w.store && k in Run(Flat(ss, i), 0, w).w.store
    ensures Evident(w, Run(Flat(ss, i), 0, w).w, s)
    decreases j - i
  {
    hide Run, Evident, Onward, Makes;
    StageLemma(ss, i, w);
    var a := Run(ss[i], 0, w);
    forall h | 0 <= h < |ss[i]| ensures Makes(ss[i][h]) != Some(k) { assert ss[i][h] in ss[i]; }
    RunFrame(ss[i], w, k);
    assert a.r == Done;
    BuildingRest(ss, i);
    hide Flat, Building;
    RunOnward(ss[i], 0, w);
    RunOnward(Flat(ss, i + 1), 0, a.w);
    if i == j {
      assert ss[i][0..] == ss[i];
      RunEvident(ss[i], 0, w, s);
      EvidentNow(w, a.w, Run(Flat(ss, i), 0, w).w, s);
    } else {
      StagePassed(ss, i + 1, j, a.w, k, s);
      EvidentBehind(w, a.w, Run(Flat(ss, i), 0, w).w, s);
    }
  }

  lemma BuildingRest(ss: seq<Plan>, i: nat)
    requires i < |ss| && Building(Flat(ss, i))
    ensures Building(Flat(ss, i + 1))
  {
    var rest := Flat(ss, i + 1);
    forall h | 0 <= h < |rest| ensures Builder(rest[h]) {
      assert Flat(ss, i)[|ss[i]| + h] == rest[h];
    }
  }

  /** The component each stage makes. */
  function ComponentOf(h: nat): Option<nat> {
    if h < 4 then Some(h) else if h == 5 then Some(4) else if h == 7 then Some(5) else if h == 9 then Some(6) else None
  }

  lemma NotOf(spec: Spec, order: seq<string>, c: nat, k: Key, h: nat, s: Step)
    requires c < 7 && k in Components(spec)[c] && h < 11 && ComponentOf(h) != Some(c) && s in Stages(spec, order)[h]
    ensures Makes(s) != Some(k)
  {
    hide Stages, Made, Components, Makes, Home;
    SevenComponents(spec);
    CountStages(spec, order);
    if Makes(s) == Some(k) {
      MadeStage(spec, order, h);
      InMade(Stages(spec, order)[h], k);
      HomeOf(spec, c, k);
      if ComponentOf(h).Some? { HomeOf(spec, ComponentOf(h).value, k); }
    }
  }

  lemma PassedBefore(w: World, ch: Choice, c: nat, k: Key, j: nat, s: Step)
    requires BuildStart(w).Some? && c < 7 && k in Components(SpecOf(w))[c]
    requires k !in w.store && k in Pass(w, ch).w.store
    requires j < 11 && (forall h :: 0 <= h <= j ==> ComponentOf(h) != Some(c))
    requires s in Stages(SpecOf(w), ch.guides)[j]
    ensures Evident(w, Pass(w, ch).w, s)
  {
    hide Pass, BuildStart, UserStage.Stage, Run, Evident, Stages, Components, Flat, UserSpace, Makes, Building, Joined;
    var spec, b := SpecOf(w), BuildStart(w).value.1;
    var ss := Stages(spec, ch.guides);
    BuildStartFacts(w, ch);
    SevenComponents(spec);
    InJoined(Components(spec), 0, k);
    ListedOutside(spec, k);
    UserStageAvoids(spec, ch.users, b, k);
    var u := UserStage.Stage(spec, ch.users, b);
    MainFine(spec, ch.guides);
    CountStages(spec, ch.guides);
    assert |ss| == 11 by { ElevenStages(spec, ch.guides); }
    forall h | 0 <= h < |ss| ensures Building(ss[h]) { StageBuilding(spec, ch.guides, h); }
    forall h, t | 0 <= h <= j && t in ss[h] ensures Makes(t) != Some(k) { NotOf(spec, ch.guides, c, k, h, t); }
    StagePassed(ss, 0, j, u.w, k, s);
    StageStart(w, ch);
    EvidentFrom(w, u.w, Pass(w, ch).w, s);
  }

  lemma ElevenStages(spec: Spec, order: seq<string>)
    ensures |Stages(spec, order)| == 11
  {
  }

  lemma StageBuilding(spec: Spec, order: seq<string>, j: nat)
    requires j < |Stages(spec, order)|
    ensures Building(Stages(spec, order)[j])
  {
    hide MainPlan, Stages;
    MainFine(spec, order);
    var p := Stages(spec, order)[j];
    forall i | 0 <= i < |p| ensures Builder(p[i]) {
      InStage(spec, order, j, p[i]);
    }
  }

  /** Whatever fails: when an object of GitOps, the mesh or Vault is new after a pass, the foreign stages in front of it
      have been called and answered in that pass. */
  lemma ForeignsFirst(w: World, ch: Choice, c: nat, k: Key)
    requires BuildStart(w).Some? && c < 7 && k in Components(SpecOf(w))[c]
    requires k !in w.store && k in Pass(w, ch).w.store
    ensures var a, b := w.trail, Pass(w, ch).w.trail;
            && (c >= 4 ==> Answered(a, b, "gitea") && Answered(a, b, "pipelines"))
            && (c >= 5 ==> Answered(a, b, "codeready"))
            && (c >= 6 ==> Answered(a, b, "serverless"))
  {
    hide Pass, BuildStart, Components, Evident, Answered, Stages;
    var spec := SpecOf(w);
    if c >= 4 {
      FirstForeigns(spec, ch.guides);
      PassedBefore(w, ch, c, k, 4, ForeignStep("gitea"));
      PassedBefore(w, ch, c, k, 4, ForeignStep("pipelines"));
      EvidentIs(w, Pass(w, ch).w, ForeignStep("gitea"));
      EvidentIs(w, Pass(w, ch).w, ForeignStep("pipelines"));
    }
    if c >= 5 {
      LaterForeigns(spec, ch.guides);
      PassedBefore(w, ch, c, k, 6, ForeignStep("codeready"));
      EvidentIs(w, Pass(w, ch).w, ForeignStep("codeready"));
    }
    if c >= 6 {
      PassedBefore(w, ch, c, k, 8, ForeignStep("serverless"));
      EvidentIs(w, Pass(w, ch).w, ForeignStep("serverless"));
    }
  }

  lemma FirstForeigns(spec: Spec, order: seq<string>)
    ensures |Stages(spec, order)| == 11
    ensures ForeignStep("gitea") in Stages(spec, order)[4] && ForeignStep("pipelines") in Stages(spec, order)[4]
  {
  }

  lemma LaterForeigns(spec: Spec, order: seq<string>)
    ensures |Stages(spec, order)| == 11
    ensures ForeignStep("codeready") in Stages(spec, order)[6] && ForeignStep("serverless") in Stages(spec, order)[8]
  {
  }
}
