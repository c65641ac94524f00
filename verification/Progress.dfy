/** Building plans: crash and resume, content after completion, and fixpoints, under every fault script. */
module Progress {
  import opened World
  import opened Steps
  import opened Gates
  import opened Scans
  import opened Plans
  import opened Frame

  /** A step of a stage that builds: it creates at most one object and removes none. */
  predicate Builder(s: Step) {
    s.EnsureStep? || s.SyncStep? || s.CloneStep? || s.PeekStep? || s.ApproveStep? || s.AwaitStep? || s.ScanStep?
    || s.ForeignStep?
  }

  ghost predicate Building(p: Plan) {
    forall i :: 0 <= i < |p| ==> Builder(p[i])
  }

  /** The object a step sees to. */
  function Makes(s: Step): Option<Key> {
    match s
    case EnsureStep(k, _) => Some(k)
    case SyncStep(k, _, _) => Some(k)
    case CloneStep(k, _, _) => Some(k)
    case _ => None
  }

  /** Only the step's own key can appear, and only an update of that key changes stored content. */
  ghost predicate Grows(s: Step, before: map<Key, Obj>, after: map<Key, Obj>) {
    && (forall k :: k in before ==> k in after && (before[k] == after[k] || (s.SyncStep? && s.key == k)))
    && (forall k :: k in after && k !in before ==> Makes(s) == Some(k))
  }

  /** What a completed step leaves under its key. */
  function Left(s: Step, store: map<Key, Obj>): Obj
    requires s.EnsureStep? || s.SyncStep?
  {
    match s
    case EnsureStep(k, o) => if k in store then store[k] else o
    case SyncStep(k, o, rule) => Effective(rule, o, store, k)
  }

  lemma EnsureGrows(w: World, k: Key, o: Obj)
    ensures var s, a := EnsureStep(k, o), EnsureKey(w, k, o);
            Grows(s, w.store, a.w.store) && (a.r == Done ==> k in a.w.store && a.w.store[k] == Left(s, w.store))
  {
    CreateFacts(w, k, o);
  }

  lemma SyncGrows(w: World, k: Key, o: Obj, rule: Rule)
    ensures var s, a := SyncStep(k, o, rule), SyncKey(w, k, o, rule);
            Grows(s, w.store, a.w.store) && (a.r == Done ==> k in a.w.store && a.w.store[k] == Left(s, w.store))
  {
    var c := DoCreate(w, k, o);
    CreateFacts(w, k, o);
    if c.out == AlreadyExists {
      var g := DoGet(c.w, k);
      GetFacts(c.w, k);
      if g.out == Ok && !Fresh(rule, o, g.w.store[k]) {
        UpdateFacts(g.w, k, Overwrite(rule, o, g.w.store[k]));
      }
    }
  }

  lemma CloneGrows(w: World, k: Key, source: Key, user: string)
    ensures var s, a := CloneStep(k, source, user), CloneKey(w, k, source, user);
            Grows(s, w.store, a.w.store) && (a.r == Done ==> k in a.w.store)
  {
    var g := DoGet(w, k);
    GetFacts(w, k);
    if g.out != Ok {
      var s := DoGet(g.w, source);
      GetFacts(g.w, source);
      if s.out == Ok {
        CreateFacts(s.w, k, WithUser(s.w.store[source], user));
      } else {
        ReadFacts(s.w, Update, Key(SecurityContextConstraints, "", ""), OtherError);
      }
    }
  }

  lemma DoGrows(s: Step, w: World)
    requires Builder(s)
    ensures var a := Do(s, w);
            && Grows(s, w.store, a.w.store)
            && (a.r == Done && Makes(s).Some? ==> Makes(s).value in a.w.store)
            && (a.r == Done && (s.EnsureStep? || s.SyncStep?) ==> a.w.store[s.key] == Left(s, w.store))
  {
    match s
    case EnsureStep(k, o) => EnsureGrows(w, k, o);
    case SyncStep(k, o, rule) => SyncGrows(w, k, o, rule);
    case CloneStep(k, source, user) => CloneGrows(w, k, source, user);
    case PeekStep(k) => GetFacts(w, k);
    case ApproveStep(sub, csv) => ApproveFollows(w, sub, csv);
    case AwaitStep(dep) => GateExact(w, dep);
    case ScanStep(kind, ns, base, from) => ScanBound(w, kind, ns, base, from);
    case ForeignStep(name) => ReadFacts(w, Watch, Key(Workshop, "", name), Ok);
  }

  /* ---------- Crash and resume ---------- */

  /** The objects of the first n steps. */
  ghost function Keys(p: Plan, n: nat): set<Key>
    requires n <= |p|
  {
    set i | 0 <= i < n && Makes(p[i]).Some? :: Makes(p[i]).value
  }

  lemma KeysNext(p: Plan, n: nat)
    requires n < |p|
    ensures Keys(p, n + 1) == Keys(p, n) + (if Makes(p[n]).Some? then {Makes(p[n]).value} else {})
    ensures Keys(p, n + 1) <= Keys(p, |p|)
  {
  }

  /** Exactly the objects of the first n steps of the plan are present, among those of the whole plan. */
  ghost predicate AtPrefix(p: Plan, n: nat, store: map<Key, Obj>) {
    n <= |p| && store.Keys * Keys(p, |p|) == Keys(p, n)
  }

  function Max(a: nat, b: nat): nat {
    if a < b then b else a
  }

  lemma StepPrefix(p: Plan, i: nat, n: nat, w: World)
    requires i < |p| && n <= |p| && Building(p) && AtPrefix(p, Max(n, i), w.store)
    ensures var a := Do(p[i], w);
            && (a.r == Done ==> AtPrefix(p, Max(n, i + 1), a.w.store))
            && (AtPrefix(p, Max(n, i), a.w.store) || AtPrefix(p, Max(n, i + 1), a.w.store))
            && a.w.store.Keys - Keys(p, |p|) == w.store.Keys - Keys(p, |p|)
  {
    DoGrows(p[i], w);
    KeysNext(p, i);
    var a := Do(p[i], w);
    assert w.store.Keys <= a.w.store.Keys;
    assert i < n ==> Keys(p, i + 1) <= Keys(p, n);
    var all := Keys(p, |p|);
    assert a.w.store.Keys * all == w.store.Keys * all || a.w.store.Keys * all == w.store.Keys * all + Keys(p, i + 1);
  }

  /** Crash and resume: from a prefix of the plan, a run under any faults stops at a prefix that is no shorter, and a
      run that completes has the whole plan, so any number of broken runs before it makes no difference. */
  lemma {:induction false} RunPrefix(p: Plan, i: nat, n: nat, w: World) returns (m: nat)
    requires i <= |p| && n <= |p| && Building(p) && AtPrefix(p, Max(n, i), w.store)
    ensures var a := Run(p, i, w);
            && Max(n, i) <= m && AtPrefix(p, m, a.w.store)
            && (a.r == Done ==> AtPrefix(p, |p|, a.w.store))
            && a.w.store.Keys - Keys(p, |p|) == w.store.Keys - Keys(p, |p|)
    decreases |p| - i
  {
    m := Max(n, i);
    if i < |p| {
      var a := Do(p[i], w);
      StepPrefix(p, i, n, w);
      if a.r == Done {
        m := RunPrefix(p, i + 1, n, a.w);
      } else if !AtPrefix(p, m, a.w.store) {
        m := Max(n, i + 1);
      }
    }
  }

  /* ---------- Content after completion ---------- */

  /** A run keeps what is stored, except under the keys it updates. */
  lemma {:induction false} RunKeeps(p: Plan, i: nat, w: World)
    requires i <= |p| && Building(p)
    ensures var v := Run(p, i, w).w;
            && (forall k :: k in w.store ==> k in v.store)
            && (forall k :: k in w.store && (forall j :: i <= j < |p| ==> !(p[j].SyncStep? && p[j].key == k))
                  ==> v.store[k] == w.store[k])
            && (forall k :: k in v.store && k !in w.store ==> exists j :: i <= j < |p| && Makes(p[j]) == Some(k))
    decreases |p| - i
  {
    if i < |p| {
      var a := Do(p[i], w);
      DoGrows(p[i], w);
      if a.r == Done {
        RunKeeps(p, i + 1, a.w);
      }
    }
  }

  lemma RunFrame(p: Plan, w: World, k: Key)
    requires Building(p) && forall j :: 0 <= j < |p| ==> Makes(p[j]) != Some(k)
    ensures var v := Run(p, 0, w).w;
            (k in v.store <==> k in w.store) && (k in w.store ==> v.store[k] == w.store[k])
  {
    RunKeeps(p, 0, w);
  }

  /** A completed run went through every step, and until a key's own step its content is what it was. */
  lemma {:induction false} RunReaches(p: Plan, i: nat, j: nat, w: World, k: Key) returns (u: World)
    requires i <= j <= |p| && Building(p) && Run(p, i, w).r == Done
    ensures Run(p, i, w) == Run(p, j, u)
    ensures (forall h :: i <= h < j ==> Makes(p[h]) != Some(k)) ==>
              (k in u.store <==> k in w.store) && (k in w.store ==> u.store[k] == w.store[k])
    decreases j - i
  {
    u := w;
    if i < j {
      DoGrows(p[i], w);
      u := RunReaches(p, i + 1, j, Do(p[i], w).w, k);
    }
  }

  /** Every update-if-different test is false on what its own step wrote. */
  lemma OwnWriteSettles(s: Step, store: map<Key, Obj>)
    requires s.SyncStep?
    ensures var o := Effective(s.rule, s.obj, store, s.key);
            Fresh(s.rule, s.obj, o) || Overwrite(s.rule, s.obj, o) == o
  {
    var o := Effective(s.rule, s.obj, store, s.key);
    if s.rule.Merged? && s.obj.Table? && o.Table? && !Fresh(s.rule, s.obj, o) {
      assert o.data + s.obj.data == o.data;
    }
  }

  /** The object of s is seen to by no other step. */
  ghost predicate OnlyBy(p: Plan, s: Step) {
    forall t :: t in p && Makes(t) == Makes(s) ==> t == s
  }

  /** A step that finds what it has left leaves it as it is. */
  lemma LeftTwice(s: Step, before: map<Key, Obj>, after: map<Key, Obj>)
    requires s.EnsureStep? || s.SyncStep?
    requires s.key in after && after[s.key] == Left(s, before)
    ensures Left(s, after) == Left(s, before)
  {
    if s.SyncStep? {
      OwnWriteSettles(s, before);
    }
  }

  lemma LeftElsewhere(s: Step, before: map<Key, Obj>, after: map<Key, Obj>)
    requires s.EnsureStep? || s.SyncStep?
    requires (s.key in after <==> s.key in before) && (s.key in before ==> after[s.key] == before[s.key])
    ensures Left(s, after) == Left(s, before)
  {
  }

  /** What a completed run leaves under a key that only the step s sees to. */
  lemma {:induction false} RunContent(p: Plan, i: nat, s: Step, w: World)
    requires i <= |p| && Building(p) && (s.EnsureStep? || s.SyncStep?) && OnlyBy(p, s) && Run(p, i, w).r == Done
    ensures var v := Run(p, i, w).w;
            if s in p[i..] then s.key in v.store && v.store[s.key] == Left(s, w.store)
            else (s.key in v.store <==> s.key in w.store) && (s.key in w.store ==> v.store[s.key] == w.store[s.key])
    decreases |p| - i
  {
    if i < |p| {
      RunNext(p, i, w);
      var a := Do(p[i], w);
      DoGrows(p[i], w);
      assert p[i..] == [p[i]] + p[i + 1..];
      assert p[i] in p;
      assert p[i] == s || Makes(p[i]) != Makes(s);
      hide Do, Run, Left, OnlyBy, Building;
      RunContent(p, i + 1, s, a.w);
      if p[i] == s {
        LeftTwice(s, w.store, a.w.store);
      } else {
        LeftElsewhere(s, w.store, a.w.store);
      }
    } else {
      RunEnd(p, w);
    }
  }

  /** A completed run has ensured every object of its plan. */
  lemma RunMade(p: Plan, j: nat, w: World)
    requires Building(p) && j < |p| && Makes(p[j]).Some? && Run(p, 0, w).r == Done
    ensures Makes(p[j]).value in Run(p, 0, w).w.store
  {
    var u := RunReaches(p, 0, j, w, Makes(p[j]).value);
    DoGrows(p[j], u);
    RunKeeps(p, j + 1, Do(p[j], u).w);
  }

  /** Order of creation: an object that only the second part makes is new after a run only if the first part was done,
      so everything the first part makes is present. */
  lemma RunBefore(a: Plan, b: Plan, w: World, k: Key, j: nat)
    requires Building(a) && Building(b) && j < |a| && Makes(a[j]).Some?
    requires forall h :: 0 <= h < |a| ==> Makes(a[h]) != Some(k)
    requires k !in w.store && k in Run(a + b, 0, w).w.store
    ensures Makes(a[j]).value in Run(a + b, 0, w).w.store
  {
    RunConcat(a, b, 0, w);
    RunFrame(a, w, k);
    var first := Run(a, 0, w);
    RunMade(a, j, w);
    RunKeeps(b, 0, first.w);
  }

  /* ---------- Fixpoint ---------- */

  /** A further execution of the step would find nothing to change. */
  ghost predicate Settled(s: Step, store: map<Key, Obj>) {
    && (Makes(s).Some? ==> Makes(s).value in store)
    && (s.SyncStep? ==> Fresh(s.rule, s.obj, store[s.key]) || Overwrite(s.rule, s.obj, store[s.key]) == store[s.key])
  }

  lemma SettledStep(s: Step, w: World)
    requires Builder(s) && Settled(s, w.store)
    ensures Do(s, w).w.store == w.store
  {
    DoGrows(s, w);
    if s.SyncStep? {
      var c := DoCreate(w, s.key, s.obj);
      CreateFacts(w, s.key, s.obj);
      GetFacts(c.w, s.key);
      UpdateFacts(DoGet(c.w, s.key).w, s.key, Overwrite(s.rule, s.obj, w.store[s.key]));
    }
  }

  /** Once every step is settled, a run changes nothing, under any faults. */
  lemma {:induction false} RunSettled(p: Plan, i: nat, w: World)
    requires i <= |p| && Building(p) && forall j :: 0 <= j < |p| ==> Settled(p[j], w.store)
    ensures Run(p, i, w).w.store == w.store
    decreases |p| - i
  {
    if i < |p| {
      SettledStep(p[i], w);
      if Do(p[i], w).r == Done {
        RunSettled(p, i + 1, Do(p[i], w).w);
      }
    }
  }

  /** No two different steps update the same object. */
  ghost predicate DistinctSyncs(p: Plan) {
    forall s, t :: s in p && t in p && s.SyncStep? && t.SyncStep? && s.key == t.key ==> s == t
  }

  /** A completed step is settled, and so stays every step that was. */
  lemma StepSettles(p: Plan, i: nat, j: nat, w: World)
    requires j <= i < |p| && Building(p) && DistinctSyncs(p) && Do(p[i], w).r == Done
    requires j < i ==> Settled(p[j], w.store)
    ensures Settled(p[j], Do(p[i], w).w.store)
  {
    hide Do, Left, Fresh, Overwrite, Effective;
    DoGrows(p[i], w);
    assert p[i] in p && p[j] in p;
    if p[j].SyncStep? && p[i].SyncStep? && p[i].key == p[j].key {
      OwnWriteSettles(p[i], w.store);
      LeftSync(p[i], w.store);
    }
  }

  lemma LeftSync(s: Step, store: map<Key, Obj>)
    requires s.SyncStep?
    ensures Left(s, store) == Effective(s.rule, s.obj, store, s.key)
  {
  }

  lemma {:induction false} RunSettles(p: Plan, i: nat, w: World)
    requires i <= |p| && Building(p) && DistinctSyncs(p) && Run(p, i, w).r == Done
    requires forall j :: 0 <= j < i ==> Settled(p[j], w.store)
    ensures forall j :: 0 <= j < |p| ==> Settled(p[j], Run(p, i, w).w.store)
    decreases |p| - i
  {
    if i < |p| {
      RunNext(p, i, w);
      var a := Do(p[i], w);
      hide Do, Settled, DistinctSyncs, Building;
      forall j | 0 <= j < i + 1 ensures Settled(p[j], a.w.store) {
        StepSettles(p, i, j, w);
      }
      RunSettles(p, i + 1, a.w);
    }
  }

  /** Fixpoint: after one completed run, another run of the same plan leaves the whole store as it is, whatever fails
      in it. */
  lemma Fixpoint(p: Plan, w: World, w2: World)
    requires Building(p) && DistinctSyncs(p) && Run(p, 0, w).r == Done
    requires w2.store == Run(p, 0, w).w.store
    ensures Run(p, 0, w2).w.store == w2.store
  {
    RunSettles(p, 0, w);
    RunSettled(p, 0, w2);
  }

  /* ---------- Fault-free runs ---------- */

  predicate GateStep(s: Step) {
    s.ApproveStep? || s.AwaitStep?
  }

  /** The security contexts that the plan copies are there. */
  ghost predicate SourcesPresent(p: Plan, store: map<Key, Obj>) {
    forall s :: s in p && s.CloneStep? ==> s.source in store
  }

  lemma SyncCalm(w: World, k: Key, o: Obj, rule: Rule)
    requires Calm(w)
    ensures SyncKey(w, k, o, rule).r == Done
  {
    var c := DoCreate(w, k, o);
    CreateFacts(w, k, o);
    if k in w.store {
      var g := DoGet(c.w, k);
      GetFacts(c.w, k);
      UpdateFacts(g.w, k, Overwrite(rule, o, g.w.store[k]));
    }
  }

  lemma CloneCalm(w: World, k: Key, source: Key, user: string)
    requires Calm(w) && source in w.store
    ensures CloneKey(w, k, source, user).r == Done
  {
    var g := DoGet(w, k);
    GetFacts(w, k);
    var s := DoGet(g.w, source);
    GetFacts(g.w, source);
    CreateFacts(s.w, k, WithUser(w.store[source], user));
  }

  lemma CalmStepDone(s: Step, w: World)
    requires Calm(w) && Builder(s) && !GateStep(s) && (s.CloneStep? ==> s.source in w.store)
    ensures Do(s, w).r == Done
  {
    match s
    case EnsureStep(k, o) => CreateFacts(w, k, o);
    case SyncStep(k, o, rule) => SyncCalm(w, k, o, rule);
    case CloneStep(k, source, user) => CloneCalm(w, k, source, user);
    case PeekStep(k) =>
    case ScanStep(kind, ns, base, from) =>
    case ForeignStep(name) => ReadFacts(w, Watch, Key(Workshop, "", name), Ok); PopFacts(w);
  }

  lemma GateResult(s: Step, w: World)
    requires GateStep(s)
    ensures Do(s, w).r == Done || Do(s, w).r == Requeue
  {
    if s.AwaitStep? {
      GateExact(w, s.dep);
    }
  }

  /** Without faults a building plan either completes or stops at one of its gates. */
  lemma {:induction false} CalmStops(p: Plan, i: nat, w: World)
    requires i <= |p| && Calm(w) && Building(p) && SourcesPresent(p, w.store)
    ensures var a := Run(p, i, w);
            a.r == Done || (a.r == Requeue && exists s :: s in p && GateStep(s))
    decreases |p| - i
  {
    RunNextOrEnd(p, i, w);
    if i < |p| {
      var a := Do(p[i], w);
      assert p[i] in p;
      DoGrows(p[i], w);
      StepCalm(p[i], w);
      if GateStep(p[i]) { GateResult(p[i], w); } else { CalmStepDone(p[i], w); }
      hide Do, Run;
      if a.r == Done {
        CalmStops(p, i + 1, a.w);
      }
    }
  }

  lemma RunNextOrEnd(p: Plan, i: nat, w: World)
    requires i <= |p|
    ensures Run(p, i, w) ==
            if i == |p| then Answer(w, Done)
            else if Do(p[i], w).r == Done then Run(p, i + 1, Do(p[i], w).w)
            else Do(p[i], w)
  {
  }
}
