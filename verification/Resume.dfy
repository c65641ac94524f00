/** Crash and resume over runs, and the fixpoint of a whole pass. */
module Resume {
  import opened World
  import opened Steps
  import opened Plans
  import opened Progress
  import opened Frame
  import opened Htpasswd
  import opened Accounts
  import opened Convergence
  import opened Reconcile
  import opened Finalizer
  import opened MainFacts
  import opened Runs
  import UserStage
  import PortalStage

  /* ---------- The guide order does not matter for which objects there are ---------- */

  lemma {:induction false} FlatTail(a: seq<Plan>, b: seq<Plan>, i: nat)
    requires i <= |a| == |b| && forall j :: i <= j < |a| ==> a[j] == b[j]
    ensures Flat(a, i) == Flat(b, i)
    decreases |a| - i
  {
    if i < |a| {
      FlatTail(a, b, i + 1);
    }
  }

  /** The plan of a spec, as far as it determines which objects are made. */
  function Outline(spec: Spec): Plan {
    MainPlan(spec, [])
  }

  lemma SameOutline(spec: Spec, order: seq<string>)
    ensures var p, q := MainPlan(spec, order), Outline(spec);
            |p| == |q| && forall i :: 0 <= i < |p| ==> Makes(p[i]) == Makes(q[i])
  {
    hide Flat, PortalStage.Environment, PortalStage.ModuleUrls;
    var a, b := Stages(spec, order), Stages(spec, []);
    FlatTail(a, b, 1);
    FlatHead(a);
    FlatHead(b);
  }

  lemma FlatHead(ss: seq<Plan>)
    requires |ss| > 0
    ensures Flat(ss, 0) == ss[0] + Flat(ss, 1)
  {
  }

  lemma SameKeys(p: Plan, q: Plan, n: nat)
    requires |p| == |q| && n <= |p| && forall i :: 0 <= i < |p| ==> Makes(p[i]) == Makes(q[i])
    ensures Keys(p, n) == Keys(q, n)
  {
  }

  lemma OutlineKeys(spec: Spec, order: seq<string>, n: nat, store: map<Key, Obj>)
    requires n <= |Outline(spec)|
    ensures |MainPlan(spec, order)| == |Outline(spec)|
    ensures AtPrefix(MainPlan(spec, order), n, store) <==> AtPrefix(Outline(spec), n, store)
  {
    hide MainPlan, Outline, Keys;
    SameOutline(spec, order);
    SameKeys(MainPlan(spec, order), Outline(spec), n);
    SameKeys(MainPlan(spec, order), Outline(spec), |Outline(spec)|);
  }

  /* ---------- Crash and resume ---------- */

  lemma UserStagePrefix(spec: Spec, ch: UserStage.Choice, w: World, n: nat)
    requires n <= |Outline(spec)| && AtPrefix(Outline(spec), n, w.store)
    ensures AtPrefix(Outline(spec), n, UserStage.Stage(spec, ch, w).w.store)
  {
    hide UserStage.Stage, MainPlan, UserSpace;
    var p, v := Outline(spec), UserStage.Stage(spec, ch, w).w;
    MainFine(spec, []);
    forall k | k in Keys(p, |p|) ensures k in v.store <==> k in w.store {
      var i :| 0 <= i < |p| && Makes(p[i]) == Some(k);
      assert p[i] in p;
      UserStageAvoids(spec, ch, w, k);
    }
    assert v.store.Keys * Keys(p, |p|) == w.store.Keys * Keys(p, |p|);
  }

  /** A pass that does not delete, whatever fails in it, moves on from one prefix of the plan to another that is no
      shorter, and reaches the whole plan if it completes. */
  lemma PassResumes(w: World, ch: Choice, spec: Spec, n: nat) returns (m: nat)
    requires !Deletes(w) && (BuildStart(w).Some? ==> BuildStart(w).value.0 == spec)
    requires n <= |Outline(spec)| && AtPrefix(Outline(spec), n, w.store)
    ensures n <= m <= |Outline(spec)| && AtPrefix(Outline(spec), m, Pass(w, ch).w.store)
    ensures BuildStart(w).Some? && Pass(w, ch).r == Done ==> m == |Outline(spec)|
  {
    hide Pass, BuildStart, Deletes, UserStage.Stage, MainPlan, Outline, Run, AtPrefix;
    m := n;
    if BuildStart(w).Some? {
      BuildStartFacts(w, ch);
      var b := BuildStart(w).value.1;
      var u := UserStage.Stage(spec, ch.users, b);
      UserStagePrefix(spec, ch.users, b, n);
      if u.r == Done {
        OutlineKeys(spec, ch.guides, n, u.w.store);
        m := RunFromPrefix(spec, ch.guides, n, u.w);
        OutlineKeys(spec, ch.guides, m, Pass(w, ch).w.store);
      }
    } else {
      IdlePass(w, ch);
    }
  }

  lemma RunFromPrefix(spec: Spec, order: seq<string>, n: nat, w: World) returns (m: nat)
    requires n <= |MainPlan(spec, order)| && AtPrefix(MainPlan(spec, order), n, w.store)
    ensures var p, a := MainPlan(spec, order), Run(MainPlan(spec, order), 0, w);
            n <= m <= |p| && AtPrefix(p, m, a.w.store) && (a.r == Done ==> m == |p|)
  {
    hide MainPlan, Run;
    var p := MainPlan(spec, order);
    MainFine(spec, order);
    assert Max(n, 0) == n;
    m := RunPrefix(p, 0, n, w);
    if Run(p, 0, w).r == Done {
      m := |p|;
    }
  }

  /** n passes with a fixed spec, none of them deleting, from a store without the objects of the plan. */
  ghost predicate Steady(ws: seq<World>, ts: seq<Turn>, spec: Spec, n: nat) {
    && IsRun(ws, ts) && n <= |ts|
    && (forall i :: 0 <= i < n ==> !Deletes(Begin(ws[i], ts[i])))
    && (forall i :: 0 <= i < n && BuildStart(Begin(ws[i], ts[i])).Some? ==>
        BuildStart(Begin(ws[i], ts[i])).value.0 == spec)
    && AtPrefix(Outline(spec), 0, ws[0].store)
  }

  /** Crash and resume: with a fixed spec and none of its objects at the start, after every pass the objects present
      are those of a prefix of the creation plan, the prefix never shrinks, and one completed pass ends with the whole
      plan, however many passes have failed before it. */
  lemma {:induction false} CrashAndResume(ws: seq<World>, ts: seq<Turn>, spec: Spec, n: nat) returns (ms: seq<nat>)
    requires Steady(ws, ts, spec, n)
    ensures |ms| == n + 1
    ensures forall i :: 0 <= i <= n ==> ms[i] <= |Outline(spec)| && AtPrefix(Outline(spec), ms[i], ws[i].store)
    ensures forall i :: 0 <= i < n ==> ms[i] <= ms[i + 1]
    ensures forall i :: 0 <= i < n && BuildStart(Begin(ws[i], ts[i])).Some? && PassOf(ws, ts, i).r == Done
              ==> ms[i + 1] == |Outline(spec)|
  {
    hide Pass, BuildStart, Deletes, AtPrefix, Outline;
    if n == 0 {
      ms := [0];
    } else {
      var front := CrashAndResume(ws, ts, spec, n - 1);
      assert ws[n] == PassOf(ws, ts, n - 1).w;
      var m := PassResumes(Begin(ws[n - 1], ts[n - 1]), ts[n - 1].ch, spec, front[n - 1]);
      ms := front + [m];
    }
  }

  /** Two runs of one spec that both end with a completed pass end with the same objects of the plan, however many
      passes have failed in either. */
  lemma EndAlike(ws: seq<World>, ts: seq<Turn>, n: nat, vs: seq<World>, us: seq<Turn>, m: nat, spec: Spec)
    requires Steady(ws, ts, spec, n) && Steady(vs, us, spec, m) && 0 < n && 0 < m
    requires BuildStart(Begin(ws[n - 1], ts[n - 1])).Some? && PassOf(ws, ts, n - 1).r == Done
    requires BuildStart(Begin(vs[m - 1], us[m - 1])).Some? && PassOf(vs, us, m - 1).r == Done
    ensures var all := Keys(Outline(spec), |Outline(spec)|);
            ws[n].store.Keys * all == vs[m].store.Keys * all == all
  {
    hide Pass, BuildStart, Deletes, Outline;
    var a := CrashAndResume(ws, ts, spec, n);
    var b := CrashAndResume(vs, us, spec, m);
    assert a[n - 1 + 1] == |Outline(spec)| && b[m - 1 + 1] == |Outline(spec)|;
    assert AtPrefix(Outline(spec), a[n], ws[n].store) && AtPrefix(Outline(spec), b[m], vs[m].store);
  }

  /* ---------- Fixpoint ---------- */

  lemma MainKeepsUserSpace(spec: Spec, order: seq<string>, w: World, k: Key)
    requires UserSpace(k)
    ensures SameAt(w.store, Run(MainPlan(spec, order), 0, w).w.store, k)
  {
    hide MainPlan, Run, UserSpace;
    var p := MainPlan(spec, order);
    MainFine(spec, order);
    forall j | 0 <= j < |p| ensures Makes(p[j]) != Some(k) { assert p[j] in p; }
    RunFrame(p, w, k);
  }

  lemma MainKeepsUsers(spec: Spec, order: seq<string>, w: World)
    ensures var v := Run(MainPlan(spec, order), 0, w).w;
            SameAt(w.store, v.store, SECRET) && Managed(v.store) == Managed(w.store)
            && forall n, i :: 0 <= i < 4 ==> SameAt(w.store, v.store, Link(n, i))
  {
    hide MainPlan, Run;
    var v := Run(MainPlan(spec, order), 0, w).w;
    MainKeepsUserSpace(spec, order, w, SECRET);
    forall n, i | 0 <= i < 4 ensures SameAt(w.store, v.store, Link(n, i)) {
      MainKeepsUserSpace(spec, order, w, Link(n, i));
    }
    forall n ensures IsManaged(v.store, n) <==> IsManaged(w.store, n) {
      assert SameAt(w.store, v.store, Link(n, 0));
    }
    assert Managed(v.store) == Managed(w.store);
  }

  /** Fixpoint: after a complete fault-free pass, another fault-free pass with the same spec and guide order leaves
      the content of every object as it is, although it hashes the passwords anew and lists in another order. The
      users may start from anything a run can leave behind. */
  lemma PassFixpoint(w: World, ch: Choice, w2: World, ch2: Choice)
    requires Calm(w) && Possible(w, ch) && BuildStart(w).Some? && Pass(w, ch).r == Done && Chained(w.store)
    requires Calm(w2) && Possible(w2, ch2) && BuildStart(w2).Some? && w2.store == Pass(w, ch).w.store
    requires BuildStart(w2).value.0 == BuildStart(w).value.0 && ch2.guides == ch.guides
    requires var spec := BuildStart(w).value.0;
             GoodHash(spec.prefix, spec.users, ch.users.hash) && GoodHash(spec.prefix, spec.users, ch2.users.hash)
    ensures Pass(w2, ch2).w.store == w2.store
  {
    hide Pass, BuildStart, UserStage.Stage, UserStage.Possible, MainPlan, Run, Chained, GoodHash, Wanted,
         Reconcile.Possible, Managed;
    BuildStartFacts(w, ch);
    BuildStartFacts(w2, ch2);
    var spec, b, b2 := BuildStart(w).value.0, BuildStart(w).value.1, BuildStart(w2).value.1;
    var p := MainPlan(spec, ch.guides);
    var u := UserStage.Stage(spec, ch.users, b);
    MainKeepsUsers(spec, ch.guides, u.w);
    StageFixpoint(spec, ch.users, b, ch2.users, b2);
    var u2 := UserStage.Stage(spec, ch2.users, b2);
    MainFine(spec, ch.guides);
    MainDistinct(spec, ch.guides);
    Fixpoint(p, u.w, u2.w);
  }
}
