/** A stage as an ordered plan of steps, and what every plan keeps under every script of faults and interference. */
module Plans {
  import opened World
  import opened Steps
  import opened Gates
  import opened Scans
  import opened Htpasswd

  datatype Step =
    | EnsureStep(key: Key, obj: Obj)
    | SyncStep(key: Key, obj: Obj, rule: Rule)
    | CloneStep(key: Key, source: Key, user: string)
    | PeekStep(key: Key)
    | RemoveStep(key: Key)
    | DropStep(key: Key)
    | SecretFile(text: string, total: int, prefix: string)
    | ApproveStep(sub: Key, csv: string)
    | AwaitStep(dep: Key)
    | ScanStep(kind: Kind, ns: string, base: string, from: nat)
    | DropProjects(staging: string, userId: nat, enabled: bool)
    | ForeignStep(name: string)

  type Plan = seq<Step>

  function Do(s: Step, w: World): Answer {
    match s
    case EnsureStep(k, o) => EnsureKey(w, k, o)
    case SyncStep(k, o, rule) => SyncKey(w, k, o, rule)
    case CloneStep(k, source, user) => CloneKey(w, k, source, user)
    case PeekStep(k) => Answer(DoGet(w, k).w, Done)
    case RemoveStep(k) => RemoveKey(w, k)
    case DropStep(k) => DropKey(w, k)
    case SecretFile(text, total, prefix) => SecretStep(w, text, total, prefix)
    case ApproveStep(sub, csv) => Approve(w, sub, csv)
    case AwaitStep(dep) => Await(w, dep)
    case ScanStep(kind, ns, base, from) => Answer(ScanFrom(w, kind, ns, base, from), Done)
    case DropProjects(staging, userId, enabled) => DeleteFrom(w, staging, userId, enabled, 1)
    case ForeignStep(name) => Foreign(w, name)
  }

  /** Steps in order from the i-th on, stopping at the first that does not end with Done. */
  function Run(p: Plan, i: nat, w: World): Answer
    requires i <= |p|
    decreases |p| - i
  {
    if i == |p| then Answer(w, Done)
    else
      var a := Do(p[i], w);
      if a.r != Done then a else Run(p, i + 1, a.w)
  }

  /** One step of a run. */
  lemma RunNext(p: Plan, i: nat, w: World)
    requires i < |p|
    ensures var a := Do(p[i], w); Run(p, i, w) == if a.r == Done then Run(p, i + 1, a.w) else a
  {
  }

  lemma RunEnd(p: Plan, w: World)
    ensures Run(p, |p|, w) == Answer(w, Done)
  {
  }

  /* ---------- Putting plans together ---------- */

  lemma {:induction false} RunShift(a: Plan, b: Plan, i: nat, w: World)
    requires i <= |b|
    ensures Run(a + b, |a| + i, w) == Run(b, i, w)
    decreases |b| - i
  {
    hide Do;
    if i < |b| {
      var d := Do(b[i], w);
      if d.r == Done {
        RunShift(a, b, i + 1, d.w);
      }
    }
  }

  lemma {:induction false} RunConcat(a: Plan, b: Plan, i: nat, w: World)
    requires i <= |a|
    ensures var first := Run(a, i, w);
            Run(a + b, i, w) == if first.r == Done then Run(b, 0, first.w) else first
    decreases |a| - i
  {
    hide Do;
    if i == |a| {
      RunShift(a, b, 0, w);
    } else {
      var d := Do(a[i], w);
      if d.r == Done {
        RunConcat(a, b, i + 1, d.w);
      }
    }
  }

  /** The plan of several blocks, one after the other. */
  function Flat(blocks: seq<Plan>, i: nat): Plan
    requires i <= |blocks|
    decreases |blocks| - i
  {
    if i == |blocks| then [] else blocks[i] + Flat(blocks, i + 1)
  }

  lemma {:induction false} InFlat(blocks: seq<Plan>, i: nat, s: Step)
    requires i <= |blocks|
    ensures s in Flat(blocks, i) <==> exists j :: i <= j < |blocks| && s in blocks[j]
    decreases |blocks| - i
  {
    if i < |blocks| {
      var rest := Flat(blocks, i + 1);
      InFlat(blocks, i + 1, s);
      assert Flat(blocks, i) == blocks[i] + rest;
      assert s in blocks[i] + rest <==> s in blocks[i] || s in rest;
      hide Flat;
      if s in rest {
        var j :| i + 1 <= j < |blocks| && s in blocks[j];
        assert i <= j && s in blocks[j];
      }
      if j :| i <= j < |blocks| && s in blocks[j] {
        assert j == i || i + 1 <= j;
      }
    }
  }

  /** One block of a loop, then the rest. */
  lemma RunBlock(blocks: seq<Plan>, tail: Plan, i: nat, w: World)
    requires i < |blocks|
    ensures var first := Run(blocks[i], 0, w);
            Run(Flat(blocks, i) + tail, 0, w) ==
            if first.r == Done then Run(Flat(blocks, i + 1) + tail, 0, first.w) else first
  {
    RunConcat(blocks[i], Flat(blocks, i + 1) + tail, 0, w);
    assert Flat(blocks, i) + tail == blocks[i] + (Flat(blocks, i + 1) + tail);
  }

  /* ---------- History ---------- */

  lemma EnsureOrdinary(w: World, k: Key, o: Obj)
    ensures Tame(w, EnsureKey(w, k, o).w)
  {
    CreateTame(w, k, o);
  }

  lemma SyncOrdinary(w: World, k: Key, o: Obj, rule: Rule)
    ensures Tame(w, SyncKey(w, k, o, rule).w)
  {
    var c := DoCreate(w, k, o);
    CreateTame(w, k, o);
    if c.out == AlreadyExists {
      var g := DoGet(c.w, k);
      GetTame(c.w, k);
      TameTrans(w, c.w, g.w);
      if g.out == Ok && k in g.w.store && !Fresh(rule, o, g.w.store[k]) {
        UpdateTame(g.w, k, Overwrite(rule, o, g.w.store[k]));
        TameTrans(w, g.w, DoUpdate(g.w, k, Overwrite(rule, o, g.w.store[k])).w);
      }
    }
  }

  lemma CloneOrdinary(w: World, k: Key, source: Key, user: string)
    ensures Tame(w, CloneKey(w, k, source, user).w)
  {
    var g := DoGet(w, k);
    GetTame(w, k);
    if g.out != Ok {
      var s := DoGet(g.w, source);
      GetTame(g.w, source);
      TameTrans(w, g.w, s.w);
      var a := CloneKey(w, k, source, user);
      if s.out == Ok && source in s.w.store {
        EnsureOrdinary(s.w, k, WithUser(s.w.store[source], user));
      } else {
        ReadFacts(s.w, Update, Key(SecurityContextConstraints, "", ""), OtherError);
      }
      TameTrans(w, s.w, a.w);
    }
  }

  lemma DropOrdinary(w: World, k: Key)
    ensures Tame(w, DropKey(w, k).w)
  {
    var g := DoGet(w, k);
    GetTame(w, k);
    DeleteTame(g.w, k);
    TameTrans(w, g.w, DoDelete(g.w, k).w);
  }

  lemma SecretOrdinary(w: World, text: string, total: int, prefix: string)
    ensures Tame(w, SecretStep(w, text, total, prefix).w)
  {
    var c := DoCreate(w, SECRET, Text(text));
    CreateTame(w, SECRET, Text(text));
    var g := DoGet(c.w, SECRET);
    GetTame(c.w, SECRET);
    TameTrans(w, c.w, g.w);
    var d := DoDelete(g.w, SECRET);
    DeleteTame(g.w, SECRET);
    TameTrans(w, g.w, d.w);
    EnsureOrdinary(d.w, SECRET, Text(text));
    TameTrans(w, d.w, EnsureKey(d.w, SECRET, Text(text)).w);
  }

  /** Every step but the two gates is a stretch of calls on the store. */
  lemma DoTame(s: Step, w: World)
    requires !s.ApproveStep? && !s.AwaitStep?
    ensures Tame(w, Do(s, w).w)
  {
    match s
    case EnsureStep(k, o) => EnsureOrdinary(w, k, o);
    case SyncStep(k, o, rule) => SyncOrdinary(w, k, o, rule);
    case CloneStep(k, source, user) => CloneOrdinary(w, k, source, user);
    case PeekStep(k) => GetTame(w, k);
    case RemoveStep(k) => DeleteTame(w, k);
    case DropStep(k) => DropOrdinary(w, k);
    case SecretFile(text, total, prefix) => SecretOrdinary(w, text, total, prefix);
    case ScanStep(kind, ns, base, from) => ScanBound(w, kind, ns, base, from);
    case DropProjects(staging, userId, enabled) => ProjectsTame(w, staging, userId, enabled, 1);
    case ForeignStep(name) => ReadFacts(w, Watch, Key(Workshop, "", name), Ok);
  }

  /** Every step but an approval is ordinary. */
  lemma DoOrdinary(s: Step, w: World)
    requires !s.ApproveStep?
    ensures Ordinary(w, Do(s, w).w)
  {
    if s.AwaitStep? {
      GateExact(w, s.dep);
    } else {
      DoTame(s, w);
    }
  }

  lemma {:induction false} RunTame(p: Plan, i: nat, w: World)
    requires i <= |p| && forall j :: i <= j < |p| ==> !p[j].ApproveStep? && !p[j].AwaitStep?
    ensures Tame(w, Run(p, i, w).w)
    decreases |p| - i
  {
    if i < |p| {
      DoTame(p[i], w);
      if Do(p[i], w).r == Done {
        RunTame(p, i + 1, Do(p[i], w).w);
        TameTrans(w, Do(p[i], w).w, Run(p, i, w).w);
      }
    }
  }

  /** The approvals a plan may make. */
  ghost predicate Pinned(p: Plan, pins: set<(Key, string)>) {
    forall i :: 0 <= i < |p| && p[i].ApproveStep? ==> (p[i].sub, p[i].csv) in pins
  }

  /** Whatever a plan runs into: history grows, approvals stay, and calls are made under the finalizer. */
  lemma {:induction false} RunFollows(p: Plan, i: nat, w: World)
    requires i <= |p|
    ensures Follows(w, Run(p, i, w).w)
    decreases |p| - i
  {
    if i < |p| {
      var a := Do(p[i], w);
      if p[i].ApproveStep? {
        ApproveFollows(w, p[i].sub, p[i].csv);
      } else {
        DoOrdinary(p[i], w);
      }
      if a.r == Done {
        RunFollows(p, i + 1, a.w);
        FollowsTrans(w, a.w, Run(p, i, w).w);
      }
    }
  }

  /** A plan without approvals is ordinary as a whole. */
  lemma {:induction false} RunOrdinary(p: Plan, i: nat, w: World)
    requires i <= |p|
    requires forall j :: i <= j < |p| ==> !p[j].ApproveStep?
    ensures Ordinary(w, Run(p, i, w).w)
    decreases |p| - i
  {
    if i < |p| {
      var a := Do(p[i], w);
      DoOrdinary(p[i], w);
      if a.r == Done {
        RunOrdinary(p, i + 1, a.w);
        OrdinaryTrans(w, a.w, Run(p, i, w).w);
      }
    }
  }

  lemma {:induction false} RunJustified(p: Plan, i: nat, w: World, pins: set<(Key, string)>)
    requires i <= |p| && Pinned(p, pins) && Justified(w, pins)
    ensures Justified(Run(p, i, w).w, pins)
    decreases |p| - i
  {
    if i < |p| {
      var a := Do(p[i], w);
      if p[i].ApproveStep? {
        ApproveSafe(w, p[i].sub, p[i].csv, pins);
      } else {
        DoOrdinary(p[i], w);
        OrdinaryJustified(w, a.w, pins);
      }
      if a.r == Done {
        RunJustified(p, i + 1, a.w, pins);
      }
    }
  }

  /** The Workshop resource is out of reach of every plan; only others can mark or edit it meanwhile. */
  ghost predicate CrKept(w: World, v: World) {
    && (v.cr.Some? ==> w.cr.Some? && v.cr.value.version >= w.cr.value.version
                       && v.cr.value.finalizers == w.cr.value.finalizers)
    && (w.cr.Some? && v.cr.Some? && v.cr.value.version == w.cr.value.version ==> v.cr == w.cr)
    && (w.cr.Some? && w.cr.value.marked && v.cr.Some? ==> v.cr.value.marked)
  }

  lemma CrKeptTrans(u: World, v: World, w: World)
    requires CrKept(u, v) && CrKept(v, w)
    ensures CrKept(u, w)
  {
  }

  lemma ApprovePlanCr(w: World, sub: Key, csv: string, plan: Key)
    ensures CrKept(w, DoApprovePlan(w, sub, csv, plan).w)
  {
    PopFacts(w);
    assert CrKept(w, Pop(w));
  }

  lemma GetPlanCr(w: World, plan: Key)
    ensures CrKept(w, DoGetPlan(w, plan).w)
  {
    PopFacts(w);
    assert CrKept(w, Pop(w));
  }

  lemma ApproveCr(w: World, sub: Key, csv: string)
    ensures CrKept(w, Approve(w, sub, csv).w)
  {
    var g := DoGet(w, sub);
    assert CrKept(w, g.w) by { GetTame(w, sub); }
    var st := Status(g.w, sub);
    if g.out == Ok && Pending(st, csv) && st.ref.Some? {
      var plan := PlanKey(sub.ns, st.ref.value);
      var p := DoGetPlan(g.w, plan);
      GetPlanCr(g.w, plan);
      CrKeptTrans(w, g.w, p.w);
      ApprovePlanCr(p.w, sub, csv, plan);
      CrKeptTrans(w, p.w, DoApprovePlan(p.w, sub, csv, plan).w);
    }
  }

  lemma {:induction false} RunCr(p: Plan, i: nat, w: World)
    requires i <= |p|
    ensures CrKept(w, Run(p, i, w).w)
    decreases |p| - i
  {
    if i < |p| {
      var a := Do(p[i], w);
      if p[i].ApproveStep? {
        ApproveCr(w, p[i].sub, p[i].csv);
      } else {
        DoOrdinary(p[i], w);
      }
      if a.r == Done {
        RunCr(p, i + 1, a.w);
        CrKeptTrans(w, a.w, Run(p, i, w).w);
      }
    }
  }

  /* ---------- Plans that only take away ---------- */

  ghost predicate NoCreates(w: World, v: World) {
    w.trail <= v.trail && forall i :: |w.trail| <= i < |v.trail| ==> !(v.trail[i].Called? && v.trail[i].verb == Create)
  }

  predicate Taking(s: Step) {
    s.PeekStep? || s.RemoveStep? || s.DropStep? || s.DropProjects? || s.ForeignStep?
  }

  lemma CallVerb(w: World, store: map<Key, Obj>, verb: Verb, key: Key, out: Outcome)
    requires verb != Create
    ensures var v := Pop(w);
            NoCreates(w, Settle(v, v.(store := store), verb, key, out, Next(w).fault).w)
  {
    PopFacts(w);
  }

  lemma GetVerb(w: World, k: Key)
    ensures NoCreates(w, DoGet(w, k).w)
  {
    PopFacts(w);
    assert Pop(w).(store := w.store) == Pop(w);
    CallVerb(w, w.store, Verb.Get, k, if k in w.store then Ok else NotFound);
  }

  lemma DeleteVerb(w: World, k: Key)
    ensures NoCreates(w, DoDelete(w, k).w)
  {
    PopFacts(w);
    assert Pop(w).(store := w.store) == Pop(w);
    CallVerb(w, if k in w.store then w.store - {k} else w.store, Verb.Delete, k, if k in w.store then Ok else NotFound);
  }

  lemma {:induction false} RemoveEachVerb(w: World, keys: seq<Key>, i: nat)
    requires i <= |keys|
    ensures NoCreates(w, RemoveEach(w, keys, i).w)
    decreases |keys| - i
  {
    if i < |keys| {
      DeleteVerb(w, keys[i]);
      if RemoveKey(w, keys[i]).r == Done {
        RemoveEachVerb(RemoveKey(w, keys[i]).w, keys, i + 1);
      }
    }
  }

  lemma {:induction false} DeleteFromVerb(w: World, staging: string, userId: nat, enabled: bool, id: nat)
    ensures NoCreates(w, DeleteFrom(w, staging, userId, enabled, id).w)
    decreases Ahead(w, staging, id)
  {
    AheadDrops(w, staging, id);
    if id >= userId && enabled {
      var a := RemoveEach(w, ProjectKeys(staging, id), 0);
      RemoveEachVerb(w, ProjectKeys(staging, id), 0);
      if staging != "" && a.r == Done {
        DeleteFromVerb(a.w, staging, userId, enabled, id + 1);
      }
    } else {
      var g := DoGet(w, Numbered(Namespace, "", staging, id));
      GetVerb(w, Numbered(Namespace, "", staging, id));
      if g.out != NotFound {
        DeleteFromVerb(g.w, staging, userId, enabled, id + 1);
      }
    }
  }

  lemma TakeVerb(s: Step, w: World)
    requires Taking(s)
    ensures NoCreates(w, Do(s, w).w)
  {
    match s
    case PeekStep(k) => GetVerb(w, k);
    case RemoveStep(k) => DeleteVerb(w, k);
    case DropStep(k) =>
      GetVerb(w, k);
      DeleteVerb(DoGet(w, k).w, k);
    case DropProjects(staging, userId, enabled) => DeleteFromVerb(w, staging, userId, enabled, 1);
    case ForeignStep(name) =>
      PopFacts(w);
      assert Pop(w).(store := w.store) == Pop(w);
      CallVerb(w, w.store, Verb.Watch, Key(Workshop, "", name), Ok);
  }

  lemma {:induction false} RunTaking(p: Plan, i: nat, w: World)
    requires i <= |p| && forall j :: i <= j < |p| ==> Taking(p[j])
    ensures NoCreates(w, Run(p, i, w).w)
    decreases |p| - i
  {
    if i < |p| {
      var a := Do(p[i], w);
      TakeVerb(p[i], w);
      RunNext(p, i, w);
      hide Do;
      if a.r == Done {
        RunTaking(p, i + 1, a.w);
      }
    }
  }
}
