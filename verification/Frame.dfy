/** What a plan cannot touch. */
module Frame {
  import opened World
  import opened Steps
  import opened Gates
  import opened Scans
  import opened Htpasswd
  import opened Plans

  ghost predicate InProjects(k: Key, staging: string) {
    exists id: nat :: k in ProjectKeys(staging, id)
  }

  /** The step neither creates, changes nor removes the object under this key. */
  ghost predicate Avoids(s: Step, k: Key) {
    match s
    case EnsureStep(key, _) => key != k
    case SyncStep(key, _, _) => key != k
    case CloneStep(key, _, _) => key != k
    case RemoveStep(key) => key != k
    case DropStep(key) => key != k
    case SecretFile(_, _, _) => k != SECRET
    case DropProjects(staging, _, _) => !InProjects(k, staging)
    case _ => true
  }

  ghost predicate SameAt(a: map<Key, Obj>, b: map<Key, Obj>, k: Key) {
    (k in a <==> k in b) && (k in a ==> a[k] == b[k])
  }

  lemma EnsureAvoids(w: World, key: Key, o: Obj, k: Key)
    requires key != k
    ensures SameAt(w.store, EnsureKey(w, key, o).w.store, k)
  {
    CreateFacts(w, key, o);
  }

  lemma SyncAvoids(w: World, key: Key, o: Obj, rule: Rule, k: Key)
    requires key != k
    ensures SameAt(w.store, SyncKey(w, key, o, rule).w.store, k)
  {
    var c := DoCreate(w, key, o);
    CreateFacts(w, key, o);
    var g := DoGet(c.w, key);
    GetFacts(c.w, key);
    if g.out == Ok {
      UpdateFacts(g.w, key, Overwrite(rule, o, g.w.store[key]));
    }
  }

  lemma CloneAvoids(w: World, key: Key, source: Key, user: string, k: Key)
    requires key != k
    ensures SameAt(w.store, CloneKey(w, key, source, user).w.store, k)
  {
    var g := DoGet(w, key);
    GetFacts(w, key);
    if g.out != Ok {
      var s := DoGet(g.w, source);
      GetFacts(g.w, source);
      if s.out == Ok {
        CreateFacts(s.w, key, WithUser(s.w.store[source], user));
      } else {
        ReadFacts(s.w, Update, Key(SecurityContextConstraints, "", ""), OtherError);
      }
    }
  }

  lemma DropAvoids(w: World, key: Key, k: Key)
    requires key != k
    ensures SameAt(w.store, DropKey(w, key).w.store, k)
  {
    GetFacts(w, key);
    DeleteFacts(DoGet(w, key).w, key);
  }

  lemma SecretAvoids(w: World, text: string, total: int, prefix: string, k: Key)
    requires k != SECRET
    ensures SameAt(w.store, SecretStep(w, text, total, prefix).w.store, k)
  {
    var c := DoCreate(w, SECRET, Text(text));
    CreateFacts(w, SECRET, Text(text));
    var g := DoGet(c.w, SECRET);
    GetFacts(c.w, SECRET);
    var d := DoDelete(g.w, SECRET);
    DeleteFacts(g.w, SECRET);
    CreateFacts(d.w, SECRET, Text(text));
  }

  lemma ProjectsAvoid(w: World, staging: string, userId: nat, enabled: bool, k: Key)
    requires !InProjects(k, staging)
    ensures SameAt(w.store, DeleteFrom(w, staging, userId, enabled, 1).w.store, k)
  {
    var m, n := DeleteShape(w, staging, userId, enabled, 1);
    var some := ProjectKeys(staging, m)[..n];
    assert k !in ProjectKeys(staging, m);
    assert forall x :: x in KeySet(some) ==> x in ProjectKeys(staging, m);
  }

  lemma StepAvoids(s: Step, w: World, k: Key)
    requires Avoids(s, k)
    ensures SameAt(w.store, Do(s, w).w.store, k)
  {
    match s
    case EnsureStep(key, o) => EnsureAvoids(w, key, o, k);
    case SyncStep(key, o, rule) => SyncAvoids(w, key, o, rule, k);
    case CloneStep(key, source, user) => CloneAvoids(w, key, source, user, k);
    case PeekStep(key) => GetFacts(w, key);
    case RemoveStep(key) => DeleteFacts(w, key);
    case DropStep(key) => DropAvoids(w, key, k);
    case SecretFile(text, total, prefix) => SecretAvoids(w, text, total, prefix, k);
    case ApproveStep(sub, csv) => ApproveFollows(w, sub, csv);
    case AwaitStep(dep) => GateExact(w, dep);
    case ScanStep(kind, ns, base, from) => ScanBound(w, kind, ns, base, from);
    case DropProjects(staging, userId, enabled) => ProjectsAvoid(w, staging, userId, enabled, k);
    case ForeignStep(name) => ReadFacts(w, Watch, Key(Workshop, "", name), Ok);
  }

  ghost predicate PlanAvoids(p: Plan, k: Key) {
    forall i :: 0 <= i < |p| ==> Avoids(p[i], k)
  }

  lemma {:induction false} RunAvoids(p: Plan, i: nat, w: World, k: Key)
    requires i <= |p| && PlanAvoids(p, k)
    ensures SameAt(w.store, Run(p, i, w).w.store, k)
    decreases |p| - i
  {
    if i < |p| {
      StepAvoids(p[i], w, k);
      if Do(p[i], w).r == Done {
        RunAvoids(p, i + 1, Do(p[i], w).w, k);
      }
    }
  }

  /* ---------- Faults only get fewer ---------- */

  lemma AwaitCalm(w: World, dep: Key)
    requires Calm(w)
    ensures Calm(Await(w, dep).w)
  {
    ReadFacts(w, Verb.Watch, dep, Ok);
    var s := DoWatch(w, dep);
    if s.out == Ok {
      PollCalm(s.w, dep, Next(w).events, 0);
    }
  }

  lemma {:induction false} PollCalm(w: World, dep: Key, events: seq<Event>, i: nat)
    requires Calm(w) && i <= |events|
    ensures Calm(Poll(w, dep, events, i).w)
    decreases |events| - i
  {
    ReadFacts(w, Verb.Get, dep, if dep in Pop(w).ready then Ok else NotFound);
    var g := DoGetDeployment(w, dep);
    var n := if g.out == Ok then ReadyCount(g.w, dep) else 0;
    var v := Note(g.w, Observed(dep, n));
    if n != 1 && i < |events| && g.out == Ok {
      PollCalm(if events[i].Modified? then Note(v, Observed(dep, events[i].ready)) else v, dep, events, i + 1);
    }
  }

  lemma SettleCalm(w: World, after: World, verb: Verb, key: Key, out: Outcome)
    requires Calm(w) && after.script == Pop(w).script
    ensures Calm(Settle(Pop(w), after, verb, key, out, Next(w).fault).w)
  {
    PopFacts(w);
  }

  lemma ApprovePlanCalm(w: World, sub: Key, csv: string, plan: Key)
    requires Calm(w)
    ensures Calm(DoApprovePlan(w, sub, csv, plan).w)
  {
    var v := Pop(w);
    SettleCalm(w, v, Verb.Update, plan, NotFound);
    if plan in v.plans {
      SettleCalm(w, v.(plans := v.plans[plan := v.plans[plan].(approved := true)],
          trail := v.trail + [Approval(sub, csv, plan)]),
                 Verb.Update, plan, Ok);
    }
  }

  lemma ApproveCalm(w: World, sub: Key, csv: string)
    requires Calm(w)
    ensures Calm(Approve(w, sub, csv).w)
  {
    var g := DoGet(w, sub);
    GetFacts(w, sub);
    var st := Status(g.w, sub);
    if g.out == Ok && Pending(st, csv) && st.ref.Some? {
      var plan := PlanKey(sub.ns, st.ref.value);
      SettleCalm(g.w, Pop(g.w), Verb.Get, plan, if plan in Pop(g.w).plans then Ok else NotFound);
      ApprovePlanCalm(DoGetPlan(g.w, plan).w, sub, csv, plan);
    }
  }

  lemma StepCalm(s: Step, w: World)
    requires Calm(w)
    ensures Calm(Do(s, w).w)
  {
    match s
    case ApproveStep(sub, csv) => ApproveCalm(w, sub, csv);
    case AwaitStep(dep) => AwaitCalm(w, dep);
    case _ => DoTame(s, w);
  }

  lemma {:induction false} RunCalm(p: Plan, i: nat, w: World)
    requires i <= |p| && Calm(w)
    ensures Calm(Run(p, i, w).w)
    decreases |p| - i
  {
    if i < |p| {
      StepCalm(p[i], w);
      if Do(p[i], w).r == Done {
        RunCalm(p, i + 1, Do(p[i], w).w);
      }
    }
  }
}
