/** Users and their secret over whole runs, with deletions, faults, and changes of prefix and count. */
module UserRuns {
  import opened World
  import opened Steps
  import opened Scans
  import opened Plans
  import opened Frame
  import opened Htpasswd
  import opened Accounts
  import opened Convergence
  import opened Reconcile
  import opened Finalizer
  import opened MainFacts
  import opened Runs
  import opened Resume
  import opened Strings = Text
  import UserStage
  import PortalStage
  import NexusStage
  import VaultStage

  /* ---------- The teardown behind deleteUsers ---------- */

  lemma TearAvoids(spec: Spec, k: Key)
    requires UserSpace(k)
    ensures PlanAvoids(TearPlan(spec), k)
  {
    var p := TearPlan(spec);
    forall i | 0 <= i < |p| ensures Avoids(p[i], k) {
      InFlat(TearStages(spec), 0, p[i]);
      TearStepAvoids(spec, p[i], k);
    }
  }

  lemma TearStepAvoids(spec: Spec, s: Step, k: Key)
    requires UserSpace(k) && exists j :: 0 <= j < |TearStages(spec)| && s in TearStages(spec)[j]
    ensures Avoids(s, k)
  {
    hide Avoids, UserSpace, PortalStage.DeletePlan, NexusStage.DeletePlan, VaultStage.DeletePlan;
    var j :| 0 <= j < |TearStages(spec)| && s in TearStages(spec)[j];
    if j == 0 { PortalTearAvoids(spec, s, k); }
    else if j == 1 { ProjectTearAvoids(spec, s, k); }
    else if j == 2 { NexusTearAvoids(s, k); }
    else if j == 4 { VaultTearAvoids(s, k); }
    else { ForeignAvoids(s, k); }
  }

  lemma PortalTearAvoids(spec: Spec, s: Step, k: Key)
    requires UserSpace(k) && s in PortalStage.DeletePlan(spec)
    ensures Avoids(s, k)
  {
  }

  lemma ProjectTearAvoids(spec: Spec, s: Step, k: Key)
    requires UserSpace(k)
        && s in [DropProjects(spec.staging, spec.Seats(), spec.projectEnabled), ForeignStep("bookbag")]
    ensures Avoids(s, k)
  {
    forall id: nat ensures k !in ProjectKeys(spec.staging, id) {
      NotNumbered(UserStage.INFRA, spec.staging, id);
    }
  }

  lemma NexusTearAvoids(s: Step, k: Key)
    requires UserSpace(k) && s in NexusStage.DeletePlan()
    ensures Avoids(s, k)
  {
    var i :| 0 <= i < |NexusStage.KEYS| && s == NexusStage.DeletePlan()[i];
    assert s.key == NexusStage.KEYS[6 - i];
  }

  lemma VaultTearAvoids(s: Step, k: Key)
    requires UserSpace(k) && s in VaultStage.DeletePlan()
    ensures Avoids(s, k)
  {
    assert s in VaultStage.DropServer() || s in VaultStage.DropAgent() || s == RemoveStep(VaultStage.NAMESPACE);
  }

  lemma ForeignAvoids(s: Step, k: Key)
    requires s.ForeignStep?
    ensures Avoids(s, k)
  {
  }

  /* ---------- Chains over runs ---------- */

  lemma LinkInUserSpace(name: string, i: nat)
    requires i < 4
    ensures UserSpace(Link(name, i))
  {
  }

  lemma BuildChained(spec: Spec, ch: Choice, w: World)
    requires Chained(w.store)
    ensures Chained(Build(spec, ch, w).w.store)
  {
    hide UserStage.Stage, MainPlan, Run, Chained;
    var u := UserStage.Stage(spec, ch.users, w);
    StageChained(spec, ch.users, w);
    if u.r == Done {
      MainKeepsUsers(spec, ch.guides, u.w);
      SameChains(u.w.store, Build(spec, ch, w).w.store);
    }
  }

  lemma TearKeepsUsers(spec: Spec, w: World)
    ensures var v := Run(TearPlan(spec), 0, w).w;
            SameAt(w.store, v.store, SECRET) && forall n, i :: 0 <= i < 4 ==> SameAt(w.store, v.store, Link(n, i))
  {
    hide TearPlan, Run;
    var v := Run(TearPlan(spec), 0, w).w;
    TearAvoids(spec, SECRET);
    RunAvoids(TearPlan(spec), 0, w, SECRET);
    forall n, i | 0 <= i < 4 ensures SameAt(w.store, v.store, Link(n, i)) {
      LinkInUserSpace(n, i);
      TearAvoids(spec, Link(n, i));
      RunAvoids(TearPlan(spec), 0, w, Link(n, i));
    }
  }

  lemma FinalizeChained(copy: Resource, ch: Choice, w: World)
    requires Chained(w.store)
    ensures Chained(Finalize(copy, ch, w).w.store)
  {
    hide DoList, UserStage.DeletePlan, TearPlan, Run, DoUpdateWorkshop, Chained;
    var l := DoList(w).w;
    ListKeeps(w);
    DeleteChained(ch.listed, l);
    var u := Run(UserStage.DeletePlan(ch.listed), 0, l);
    TearKeepsUsers(copy.spec, u.w);
    SameChains(u.w.store, Run(TearPlan(copy.spec), 0, u.w).w.store);
    UpdateWorkshopFacts(Teardown(copy.spec, ch, w).w, copy.(finalizers := Dropped(copy.finalizers)));
  }

  lemma PassChained(w: World, ch: Choice)
    requires Chained(w.store)
    ensures Chained(Pass(w, ch).w.store)
  {
    hide Pass, BuildStart, Deletes, Build, Finalize, DoGetWorkshop, Foreign, Chained;
    if BuildStart(w).Some? {
      BuildStartFacts(w, ch);
      BuildChained(BuildStart(w).value.0, ch, BuildStart(w).value.1);
    } else if Deletes(w) {
      DeletingPass(w, ch);
      FinalizeChained(DoGetWorkshop(w).w.cr.value, ch, Foreign(DoGetWorkshop(w).w, "console").w);
    } else {
      IdlePass(w, ch);
    }
  }

  /** Per-user prefix invariant: over every run, with faults at any call, deletion, and any changes of the spec, each
      user's objects form a prefix of User, RoleBinding, Identity, Mapping. */
  lemma {:induction false} ChainsOverRuns(ws: seq<World>, ts: seq<Turn>, n: nat)
    requires IsRun(ws, ts) && n <= |ts| && Chained(ws[0].store)
    ensures Chained(ws[n].store)
  {
    hide Pass, Chained;
    if n > 0 {
      ChainsOverRuns(ws, ts, n - 1);
      assert ws[n] == PassOf(ws, ts, n - 1).w;
      PassChained(Begin(ws[n - 1], ts[n - 1]), ts[n - 1].ch);
    }
  }

  /* ---------- Convergence over runs ---------- */

  ghost predicate Foreigner(store: map<Key, Obj>, name: string) {
    Link(name, 0) in store && !IsManaged(store, name)
  }

  lemma SameConsistent(a: map<Key, Obj>, b: map<Key, Obj>)
    requires Consistent(a) && forall n, i :: 0 <= i < 4 ==> SameAt(a, b, Link(n, i))
    ensures Consistent(b)
    ensures forall n :: IsManaged(b, n) <==> IsManaged(a, n)
    ensures forall n :: Foreigner(b, n) <==> Foreigner(a, n)
  {
    forall n ensures (IsManaged(b, n) <==> IsManaged(a, n)) && (Foreigner(b, n) <==> Foreigner(a, n)) {
      assert SameAt(a, b, Link(n, 0));
    }
    forall n | IsManaged(b, n) ensures Complete(b, n) {
      assert Complete(a, n);
      forall i | 0 <= i < 4 ensures Link(n, i) in b { assert SameAt(a, b, Link(n, i)); }
    }
    forall n, i | 1 <= i < 4 && Link(n, i) in b ensures IsManaged(b, n) {
      assert SameAt(a, b, Link(n, i));
    }
  }

  /** A fault-free pass that gets as far as its user stage, from a consistent state without strangers. */
  lemma PassConverges(w: World, ch: Choice)
    requires Calm(w) && Possible(w, ch) && BuildStart(w).Some? && Consistent(w.store)
    requires var spec := BuildStart(w).value.0;
             forall n :: n in Wanted(spec.prefix, spec.users) ==> !Foreigner(w.store, n)
    ensures var spec, v := BuildStart(w).value.0, Pass(w, ch).w;
            Consistent(v.store) && Managed(v.store) == Wanted(spec.prefix, spec.users)
            && forall n :: Foreigner(v.store, n) ==> Foreigner(w.store, n)
  {
    hide Pass, BuildStart, UserStage.Stage, UserStage.Possible, MainPlan, Run, Wanted, Reconcile.Possible, Managed;
    BuildStartFacts(w, ch);
    var spec, b := BuildStart(w).value.0, BuildStart(w).value.1;
    assert NoStrangers(b.store, Wanted(spec.prefix, spec.users)) by {
      forall n | n in Wanted(spec.prefix, spec.users) && Link(n, 0) in b.store ensures IsManaged(b.store, n) {
        assert !Foreigner(w.store, n);
      }
    }
    var u := UserStage.Stage(spec, ch.users, b);
    Converges(spec, ch.users, b);
    MainKeepsUsers(spec, ch.guides, u.w);
    hide Consistent, IsManaged;
    SameConsistent(u.w.store, Pass(w, ch).w.store);
  }

  /** User convergence over a run of fault-free passes with any changes of prefix and count: after each, the labelled
      users are exactly the wanted ones, each with role binding, identity and mapping, and nobody else has any. */
  lemma {:induction false} UsersConverge(ws: seq<World>, ts: seq<Turn>, n: nat)
    requires IsRun(ws, ts) && 0 < n <= |ts| && Consistent(ws[0].store)
    requires forall i :: 0 <= i < n ==> Faulty(ts[i].script) == 0 && BuildStart(Begin(ws[i], ts[i])).Some?
    requires forall i, name :: 0 <= i < n && Foreigner(ws[0].store, name) ==>
               name !in Wanted(BuildStart(Begin(ws[i], ts[i])).value.0.prefix,
                   BuildStart(Begin(ws[i], ts[i])).value.0.users)
    ensures var spec := BuildStart(Begin(ws[n - 1], ts[n - 1])).value.0;
            Consistent(ws[n].store) && Managed(ws[n].store) == Wanted(spec.prefix, spec.users)
    ensures forall name :: Foreigner(ws[n].store, name) ==> Foreigner(ws[0].store, name)
  {
    hide Pass, BuildStart, Consistent, Wanted, Managed, Foreigner, Reconcile.Possible;
    if n > 1 {
      UsersConverge(ws, ts, n - 1);
    }
    assert ws[n] == PassOf(ws, ts, n - 1).w;
    PassConverges(Begin(ws[n - 1], ts[n - 1]), ts[n - 1].ch);
  }

  /* ---------- The secret over runs ---------- */

  lemma SameSecret(a: map<Key, Obj>, b: map<Key, Obj>, prefix: string)
    requires SoundSecret(a, prefix) && (SECRET in b ==> SameAt(a, b, SECRET))
    ensures SoundSecret(b, prefix)
  {
  }

  lemma DeleteSecret(listed: seq<string>, w: World, prefix: string)
    requires SoundSecret(w.store, prefix)
    ensures SoundSecret(Run(UserStage.DeletePlan(listed), 0, w).w.store, prefix)
  {
    hide Do, UserStage.AllRemovals, SoundSecret;
    var front, tail := Flat(UserStage.AllRemovals(listed), 0), [RemoveStep(SECRET)];
    RunConcat(front, tail, 0, w);
    RemovalsAreBlocks(listed);
    BlocksAvoidSecret(UserStage.AllRemovals(listed), 0, w);
    var v := Run(front, 0, w).w;
    SameSecret(w.store, v.store, prefix);
    UserStage.OneStep(RemoveStep(SECRET), v);
    RemoveSecret(v, prefix);
  }

  lemma RemoveSecret(w: World, prefix: string)
    requires SoundSecret(w.store, prefix)
    ensures SoundSecret(Do(RemoveStep(SECRET), w).w.store, prefix)
  {
    DeleteFacts(w, SECRET);
    SameSecret(w.store, Do(RemoveStep(SECRET), w).w.store, prefix);
  }

  lemma FinalizeSecret(copy: Resource, ch: Choice, w: World, prefix: string)
    requires SoundSecret(w.store, prefix)
    ensures SoundSecret(Finalize(copy, ch, w).w.store, prefix)
  {
    hide DoList, UserStage.DeletePlan, TearPlan, Run, DoUpdateWorkshop, SoundSecret;
    var l := DoList(w).w;
    ListKeeps(w);
    DeleteSecret(ch.listed, l, prefix);
    var u := Run(UserStage.DeletePlan(ch.listed), 0, l);
    TearKeepsUsers(copy.spec, u.w);
    SameSecret(u.w.store, Run(TearPlan(copy.spec), 0, u.w).w.store, prefix);
    UpdateWorkshopFacts(Teardown(copy.spec, ch, w).w, copy.(finalizers := Dropped(copy.finalizers)));
  }

  /** The pass works with this prefix, and its hashes do not repeat the prefix. */
  ghost predicate UsesPrefix(w: World, ch: Choice, prefix: string) {
    BuildStart(w).Some? ==>
      var spec := BuildStart(w).value.0;
      spec.prefix == prefix && GoodHash(prefix, spec.users, ch.users.hash)
  }

  lemma PassSecret(w: World, ch: Choice, prefix: string)
    requires SoundSecret(w.store, prefix) && Possible(w, ch) && UsesPrefix(w, ch, prefix)
    ensures SoundSecret(Pass(w, ch).w.store, prefix)
    ensures BuildStart(w).Some? ==>
              var total := BuildStart(w).value.0.users;
              Calm(w) && Chained(w.store) && StaleComplete(w.store, Wanted(prefix, total)) ==>
                NamesExactly(Pass(w, ch).w.store, prefix, total)
  {
    hide Pass, BuildStart, Deletes, UserStage.Stage, UserStage.Possible, MainPlan, Run, Finalize, DoGetWorkshop,
         Foreign, SoundSecret, NamesExactly, GoodHash, Reconcile.Possible, Chained, StaleComplete, Wanted;
    if BuildStart(w).Some? {
      BuildStartFacts(w, ch);
      var spec, b := BuildStart(w).value.0, BuildStart(w).value.1;
      var u := UserStage.Stage(spec, ch.users, b);
      StageSecret(spec, ch.users, b);
      if Calm(w) && Chained(w.store) {
        CalmStage(spec, ch.users, b);
      }
      if u.r == Done {
        MainKeepsUsers(spec, ch.guides, u.w);
        SameSecret(u.w.store, Pass(w, ch).w.store, prefix);
        SameNames(u.w.store, Pass(w, ch).w.store, prefix, spec.users);
      }
    } else if Deletes(w) {
      DeletingPass(w, ch);
      FinalizeSecret(DoGetWorkshop(w).w.cr.value, ch, Foreign(DoGetWorkshop(w).w, "console").w, prefix);
    } else {
      IdlePass(w, ch);
    }
  }

  lemma SameNames(a: map<Key, Obj>, b: map<Key, Obj>, prefix: string, total: int)
    requires SameAt(a, b, SECRET)
    ensures NamesExactly(a, prefix, total) ==> NamesExactly(b, prefix, total)
  {
  }

  /** Counting stands in for comparing sets: with one prefix, over every run of user counts and under any faults, also
      between the secret's deletion and its re-creation, the stored file names prefix1 .. prefixM and counts M. */
  lemma {:induction false} SecretOverRuns(ws: seq<World>, ts: seq<Turn>, n: nat, prefix: string)
    requires IsRun(ws, ts) && n <= |ts| && SoundSecret(ws[0].store, prefix)
    requires forall i :: 0 <= i < n ==> UsesPrefix(Begin(ws[i], ts[i]), ts[i].ch, prefix)
    ensures SoundSecret(ws[n].store, prefix)
  {
    hide Pass, SoundSecret, UsesPrefix, Reconcile.Possible;
    if n > 0 {
      SecretOverRuns(ws, ts, n - 1, prefix);
      assert ws[n] == PassOf(ws, ts, n - 1).w;
      PassSecret(Begin(ws[n - 1], ts[n - 1]), ts[n - 1].ch, prefix);
    }
  }

  /** So whatever has gone wrong before, the next fault-free pass that can remove every stale user leaves a secret
      that names exactly prefix1 .. prefixN. */
  lemma SecretExact(ws: seq<World>, ts: seq<Turn>, n: nat, prefix: string)
    requires IsRun(ws, ts) && n < |ts| && SoundSecret(ws[0].store, prefix) && Chained(ws[0].store)
    requires forall i :: 0 <= i <= n ==> UsesPrefix(Begin(ws[i], ts[i]), ts[i].ch, prefix)
    requires Faulty(ts[n].script) == 0 && BuildStart(Begin(ws[n], ts[n])).Some?
    requires StaleComplete(ws[n].store, Wanted(prefix, BuildStart(Begin(ws[n], ts[n])).value.0.users))
    ensures NamesExactly(ws[n + 1].store, prefix, BuildStart(Begin(ws[n], ts[n])).value.0.users)
  {
    hide Pass, SoundSecret, UsesPrefix, Reconcile.Possible, BuildStart, Chained, StaleComplete, NamesExactly, Wanted;
    SecretOverRuns(ws, ts, n, prefix);
    ChainsOverRuns(ws, ts, n);
    assert ws[n + 1] == PassOf(ws, ts, n).w;
    PassSecret(Begin(ws[n], ts[n]), ts[n].ch, prefix);
  }

  /** Exactly when a fault-free pass that can remove its stale users leaves a secret naming the wanted users: there
      was none, or counting the prefix in the old one gave another number, or the old one named them already. */
  lemma PassSecretExact(w: World, ch: Choice)
    requires Calm(w) && Possible(w, ch) && BuildStart(w).Some? && Chained(w.store)
    requires var spec := BuildStart(w).value.0;
             StaleComplete(w.store, Wanted(spec.prefix, spec.users)) && Readable(spec.prefix, spec.users, ch.users.hash)
    ensures var spec, v := BuildStart(w).value.0, Pass(w, ch).w;
            && (NamesExactly(v.store, spec.prefix, spec.users) <==>
                Refreshed(w.store, spec.prefix, spec.users) || NamesExactly(w.store, spec.prefix, spec.users))
            && (!Refreshed(w.store, spec.prefix, spec.users) ==> SameAt(w.store, v.store, SECRET))
            && Exact(w.store, v.store, Wanted(spec.prefix, spec.users))
  {
    hide Pass, BuildStart, UserStage.Stage, UserStage.Possible, MainPlan, Run, NamesExactly, Readable, Exact,
         Refreshed, Reconcile.Possible, Chained, StaleComplete, Wanted;
    BuildStartFacts(w, ch);
    var spec, b := BuildStart(w).value.0, BuildStart(w).value.1;
    var u := UserStage.Stage(spec, ch.users, b);
    CalmStage(spec, ch.users, b);
    StageSecretExact(spec, ch.users, b);
    MainKeepsUsers(spec, ch.guides, u.w);
    SameNames(u.w.store, Pass(w, ch).w.store, spec.prefix, spec.users);
    SameNames(Pass(w, ch).w.store, u.w.store, spec.prefix, spec.users);
    ExactFrame(w.store, u.w.store, Pass(w, ch).w.store, Wanted(spec.prefix, spec.users));
  }

  /** When the secret was missing or miscounted, such a pass writes it anew: one line per wanted user, in some order,
      with the name and the hash of this pass. */
  lemma PassWritesSecret(w: World, ch: Choice)
    requires Calm(w) && Possible(w, ch) && BuildStart(w).Some? && Chained(w.store)
    requires var spec := BuildStart(w).value.0;
             && StaleComplete(w.store, Wanted(spec.prefix, spec.users))
             && Readable(spec.prefix, spec.users, ch.users.hash) && Refreshed(w.store, spec.prefix, spec.users)
    ensures var spec, v := BuildStart(w).value.0, Pass(w, ch).w.store;
            var k, order := Key(Secret, "openshift-config", "htpass-workshop-users"), ch.users.lines;
            && Ordering(order, Wanted(spec.prefix, spec.users)) && k in v && v[k].Text?
            && var lines := Split(v[k].text, '\n');
               && |lines| == |order| + 1 && lines[|order|] == ""
               && forall i :: 0 <= i < |order| ==> lines[i] == order[i] + ":" + ch.users.hash(order[i])
  {
    hide Pass, BuildStart, UserStage.Stage, UserStage.Possible, MainPlan, Run, Readable, Exact, Refreshed,
         Reconcile.Possible, Chained, StaleComplete, Wanted, File;
    BuildStartFacts(w, ch);
    var spec, b := BuildStart(w).value.0, BuildStart(w).value.1;
    var u := UserStage.Stage(spec, ch.users, b);
    CalmStage(spec, ch.users, b);
    StageWrites(spec, ch.users, b);
    MainKeepsUsers(spec, ch.guides, u.w);
    LinesPlain(spec, ch.users, b);
    FileLines(ch.users.lines, ch.users.hash);
  }

  lemma LinesPlain(spec: Spec, ch: UserStage.Choice, w: World)
    requires UserStage.Possible(spec, ch, w) && Readable(spec.prefix, spec.users, ch.hash)
    ensures PlainNames(ch.lines, ch.hash) && Ordering(ch.lines, Wanted(spec.prefix, spec.users))
  {
    hide Wanted;
    WantedPlain(spec.prefix, spec.users);
  }

  lemma StageWrites(spec: Spec, ch: UserStage.Choice, w: World)
    requires Calm(w) && UserStage.Stage(spec, ch, w).r == Done && Refreshed(w.store, spec.prefix, spec.users)
    ensures var v := UserStage.Stage(spec, ch, w).w.store;
            SECRET in v && v[SECRET] == Text(File(ch.lines, ch.hash))
  {
    hide UserStage.Stage, File, SecretStep;
    var v := BeforeSecret(spec, ch, w);
    SecretReplaced(v, File(ch.lines, ch.hash), spec.users, spec.prefix);
  }
}
