/** What the operator talks to: stored objects, the Workshop resource, install plans, deployment readiness, and a
    finite script that says what happens around each API call. */
module World {

  datatype Option<+T> = None | Some(value: T)

  datatype Kind =
    | Namespace | ConfigMap | Secret | ServiceAccount | Service | Route | Deployment | StatefulSet
    | PersistentVolumeClaim | Role | RoleBinding | ClusterRole | ClusterRoleBinding
    | CustomResourceDefinition | SecurityContextConstraints | MutatingWebhook
    | User | Identity | UserIdentityMapping
    | Subscription | Nexus | AppProject | ArgoCD | ControlPlane | MemberRoll | Plan | Workshop

  /** Cluster-scoped objects have the empty namespace. */
  datatype Key = Key(kind: Kind, ns: string, name: string)

  /** The part of an object's content the operator compares or lists by. */
  datatype Obj =
    | Bare
    | Account(managed: bool)            // a User and whether it carries the operator's label
    | Names(items: seq<string>)         // subjects, mesh members, environment, SCC users
    | Text(text: string)                // RBAC policy, htpasswd file
    | Table(data: map<string, string>)  // ConfigMap or Secret data

  datatype Spec = Spec(
    prefix: string, users: int, password: string, namespace: string,
    staging: string, projectEnabled: bool, bookbagEnabled: bool,
    scholars: bool, guides: map<string, string>, gitUrl: string, gitRef: string,
    nexusEnabled: bool, vaultEnabled: bool,
    gitopsEnabled: bool, gitopsCsv: string,
    meshEnabled: bool, serverlessEnabled: bool,
    elasticChannel: string, elasticCsv: string, jaegerCsv: string, kialiCsv: string, meshCsv: string,
    suffix: string, consoleUrl: string)
  {
    /** The user count after a negative number has been replaced by zero. */
    function Seats(): nat {
      if users < 0 then 0 else users
    }
  }

  const FINALIZER := "finalizer.workshop.stakater.com"
  const WORKSHOP := Key(Workshop, "", "workshop")

  datatype Resource = Resource(spec: Spec, finalizers: seq<string>, marked: bool, version: nat)

  datatype InstallPlan = InstallPlan(csvs: seq<string>, approved: bool)
  datatype SubStatus = SubStatus(installed: string, ref: Option<string>)

  /** Steps of everyone else, taken between two API calls of the operator. */
  datatype Env =
    | Mark                                                  // a user deletes the Workshop
    | Edit(spec: Spec)                                      // a user edits its spec
    | NewPlan(ns: string, name: string, csvs: seq<string>)  // OLM creates an unapproved install plan
    | Refer(sub: Key, name: string)                         // OLM points a subscription at a plan
    | Install(sub: Key, csv: string)                        // OLM reports an installed version
    | Replicas(dep: Key, ready: nat)                        // a deployment's ready replicas change

  /** Lost: the call fails without effect. Unacked: it takes effect, but the operator sees an error. */
  datatype Fault = Clean | Lost | Unacked

  datatype Event = Modified(ready: nat) | Broken | Other

  datatype Tick = Tick(env: seq<Env>, fault: Fault, events: seq<Event>)

  datatype Outcome = Ok | AlreadyExists | NotFound | OtherError
  datatype Verb = Create | Get | Update | Delete | List | Watch

  /** History: every call with its outcome and whether the stored Workshop carried the finalizer. */
  datatype Entry =
    | Called(verb: Verb, key: Key, out: Outcome, armed: bool)
    | Referred(sub: Key, plan: Key)
    | Approval(sub: Key, csv: string, plan: Key)
    | Cleared(sub: Key)
    | Observed(dep: Key, ready: nat)

  datatype World = World(
    store: map<Key, Obj>, cr: Option<Resource>,
    plans: map<Key, InstallPlan>, subs: map<Key, SubStatus>, ready: map<Key, nat>,
    script: seq<Tick>, trail: seq<Entry>)

  /* ---------- The environment ---------- */

  function PlanKey(ns: string, name: string): Key {
    Key(Plan, ns, name)
  }

  function Status(w: World, sub: Key): SubStatus {
    if sub in w.subs then w.subs[sub] else SubStatus("", None)
  }

  function ApplyEnv(w: World, e: Env): World {
    match e
    case Mark =>
      if w.cr.None? then w
      else if w.cr.value.finalizers == [] then w.(cr := None)
      else w.(cr := Some(w.cr.value.(marked := true, version := w.cr.value.version + 1)))
    case Edit(spec) =>
      if w.cr.None? then w
      else w.(cr := Some(w.cr.value.(spec := spec, version := w.cr.value.version + 1)))
    case NewPlan(ns, name, csvs) =>
      if PlanKey(ns, name) in w.plans then w
      else w.(plans := w.plans[PlanKey(ns, name) := InstallPlan(csvs, false)])
    case Refer(sub, name) =>
      w.(subs := w.subs[sub := Status(w, sub).(ref := Some(name))],
         trail := w.trail + [Referred(sub, PlanKey(sub.ns, name))])
    case Install(sub, csv) =>
      w.(subs := w.subs[sub := Status(w, sub).(installed := csv)])
    case Replicas(dep, n) =>
      w.(ready := w.ready[dep := n])
  }

  function ApplyAll(w: World, es: seq<Env>): World
    decreases |es|
  {
    if es == [] then w else ApplyAll(ApplyEnv(w, es[0]), es[1..])
  }

  const QUIET := Tick([], Clean, [])

  /** What surrounds the next call; after the script ends nothing happens and nothing fails. */
  function Next(w: World): Tick {
    if w.script == [] then QUIET else w.script[0]
  }

  function Pop(w: World): World {
    if w.script == [] then w
    else ApplyAll(w.(script := w.script[1..]), w.script[0].env)
  }

  predicate Armed(w: World) {
    w.cr.Some? && FINALIZER in w.cr.value.finalizers
  }

  /* ---------- API calls ---------- */

  datatype Reply = Reply(w: World, out: Outcome)

  function Log(w: World, verb: Verb, key: Key, out: Outcome): World {
    w.(trail := w.trail + [Called(verb, key, out, Armed(w))])
  }

  /** A call that reaches the server changes the world, and is acknowledged unless the reply is lost. */
  function Settle(before: World, after: World, verb: Verb, key: Key, out: Outcome, fault: Fault): Reply {
    var seen := if fault == Clean then out else OtherError;
    Reply(Log(if fault == Lost then before else after, verb, key, seen), seen)
  }

  function DoCreate(w: World, k: Key, o: Obj): Reply {
    var v := Pop(w);
    if k in v.store then Settle(v, v, Create, k, AlreadyExists, Next(w).fault)
    else Settle(v, v.(store := v.store[k := o]), Create, k, Ok, Next(w).fault)
  }

  function DoGet(w: World, k: Key): Reply {
    var v := Pop(w);
    Settle(v, v, Get, k, if k in v.store then Ok else NotFound, Next(w).fault)
  }

  function DoUpdate(w: World, k: Key, o: Obj): Reply {
    var v := Pop(w);
    if k in v.store then Settle(v, v.(store := v.store[k := o]), Update, k, Ok, Next(w).fault)
    else Settle(v, v, Update, k, NotFound, Next(w).fault)
  }

  /** An update of an object without a name is refused by the server. */
  function DoRefusedUpdate(w: World, k: Key): Reply {
    var v := Pop(w);
    Settle(v, v, Update, k, OtherError, Next(w).fault)
  }

  function DoDelete(w: World, k: Key): Reply {
    var v := Pop(w);
    if k in v.store then Settle(v, v.(store := v.store - {k}), Delete, k, Ok, Next(w).fault)
    else Settle(v, v, Delete, k, NotFound, Next(w).fault)
  }

  const USERS := Key(User, "", "")

  /** The list call by label; which users it yields is ListedUsers of the new world. */
  function DoList(w: World): Reply {
    var v := Pop(w);
    Settle(v, v, List, USERS, Ok, Next(w).fault)
  }

  function UserKey(name: string): Key {
    Key(User, "", name)
  }

  predicate IsManaged(store: map<Key, Obj>, name: string) {
    UserKey(name) in store && store[UserKey(name)] == Account(true)
  }

  /** Names of the users that carry the operator's label. */
  function Managed(store: map<Key, Obj>): (names: set<string>)
    ensures forall n :: n in names <==> IsManaged(store, n)
  {
    set k | k in store && k == UserKey(k.name) && store[k] == Account(true) :: k.name
  }

  ghost predicate Ordering(items: seq<string>, names: set<string>) {
    && (forall n :: n in items <==> n in names)
    && forall i, j :: 0 <= i < j < |items| ==> items[i] != items[j]
  }

  lemma {:induction false} OrderingSize(items: seq<string>, names: set<string>)
    requires Ordering(items, names)
    ensures |items| == |names|
  {
    if items != [] {
      var last := items[|items| - 1];
      var front := items[..|items| - 1];
      assert items == front + [last];
      OrderingSize(front, names - {last});
    }
  }

  lemma {:induction false} SomeOrder(names: set<string>) returns (items: seq<string>)
    ensures Ordering(items, names)
    decreases |names|
  {
    items := [];
    if names != {} {
      var n :| n in names;
      var rest := SomeOrder(names - {n});
      items := [n] + rest;
    }
  }

  function DoGetWorkshop(w: World): Reply {
    var v := Pop(w);
    Settle(v, v, Get, WORKSHOP, if v.cr.Some? then Ok else NotFound, Next(w).fault)
  }

  /** Optimistic concurrency: a copy older than the stored resource is refused. A marked resource without finalizers
      disappears. */
  function DoUpdateWorkshop(w: World, copy: Resource): Reply {
    var v := Pop(w);
    if v.cr.None? then Settle(v, v, Update, WORKSHOP, NotFound, Next(w).fault)
    else if v.cr.value.version != copy.version then Settle(v, v, Update, WORKSHOP, OtherError, Next(w).fault)
    else
      var stored := v.cr.value.(finalizers := copy.finalizers, version := copy.version + 1);
      var cr := if stored.marked && stored.finalizers == [] then None else Some(stored);
      Settle(v, v.(cr := cr), Update, WORKSHOP, Ok, Next(w).fault)
  }

  function DoGetPlan(w: World, plan: Key): Reply {
    var v := Pop(w);
    Settle(v, v, Get, plan, if plan in v.plans then Ok else NotFound, Next(w).fault)
  }

  /** Writing back an approved install plan on behalf of a subscription. */
  function DoApprovePlan(w: World, sub: Key, csv: string, plan: Key): Reply {
    var v := Pop(w);
    if plan in v.plans then
      Settle(v, v.(plans := v.plans[plan := v.plans[plan].(approved := true)],
                   trail := v.trail + [Approval(sub, csv, plan)]), Update, plan, Ok, Next(w).fault)
    else Settle(v, v, Update, plan, NotFound, Next(w).fault)
  }

  function DoWatch(w: World, dep: Key): Reply {
    var v := Pop(w);
    Settle(v, v, Watch, dep, Ok, Next(w).fault)
  }

  function DoGetDeployment(w: World, dep: Key): Reply {
    var v := Pop(w);
    Settle(v, v, Get, dep, if dep in v.ready then Ok else NotFound, Next(w).fault)
  }

  function Note(w: World, e: Entry): World {
    w.(trail := w.trail + [e])
  }

  /* ---------- What a stretch of history keeps ---------- */

  /** History only grows, install plans are not un-approved, and while the Workshop carries the finalizer it goes on
      carrying it and every call is made under it. */
  ghost predicate Follows(w: World, v: World) {
    && w.trail <= v.trail
    && (Armed(w) ==> Armed(v) && forall i :: |w.trail| <= i < |v.trail| && v.trail[i].Called? ==> v.trail[i].armed)
    && (forall p :: p in w.plans ==>
         p in v.plans && v.plans[p].csvs == w.plans[p].csvs && (w.plans[p].approved ==> v.plans[p].approved))
  }

  /** A stretch without an approval and without a change of the finalizers. */
  ghost predicate Ordinary(w: World, v: World) {
    && Follows(w, v)
    && (forall i :: |w.trail| <= i < |v.trail| ==> !v.trail[i].Approval?)
    && (forall p :: p in v.plans && v.plans[p].approved ==> p in w.plans && w.plans[p].approved)
    && (forall s :: s in v.subs && v.subs[s].ref.Some? ==>
         Status(w, s).ref == v.subs[s].ref || Referred(s, PlanKey(s.ns, v.subs[s].ref.value)) in v.trail)
    && (v.cr.Some? ==> w.cr.Some? && v.cr.value.version >= w.cr.value.version
                       && v.cr.value.finalizers == w.cr.value.finalizers)
    && (w.cr.Some? && v.cr.Some? && v.cr.value.version == w.cr.value.version ==> v.cr == w.cr)
    && (w.cr.Some? && w.cr.value.marked && v.cr.Some? ==> v.cr.value.marked)
    && |v.script| <= |w.script|
  }

  /** A stretch that adds nothing to the history but calls and steps of others. */
  ghost predicate Plain(w: World, v: World) {
    w.trail <= v.trail && forall i :: |w.trail| <= i < |v.trail| ==> v.trail[i].Called? || v.trail[i].Referred?
  }

  /** A stretch of ordinary calls on the store. */
  ghost predicate Tame(w: World, v: World) {
    Ordinary(w, v) && Plain(w, v) && Faulty(v.script) <= Faulty(w.script)
  }

  lemma TameTrans(u: World, v: World, w: World)
    requires Tame(u, v) && Tame(v, w)
    ensures Tame(u, w)
  {
    OrdinaryTrans(u, v, w);
  }

  /** How many of the coming calls will report a failure that is not the server's answer. */
  function Faulty(script: seq<Tick>): nat {
    if script == [] then 0 else (if script[0].fault == Clean then 0 else 1) + Faulty(script[1..])
  }

  /** No call will fail by accident. */
  ghost predicate Calm(w: World) {
    Faulty(w.script) == 0
  }

  lemma FollowsTrans(u: World, v: World, w: World)
    requires Follows(u, v) && Follows(v, w)
    ensures Follows(u, w)
  {
  }

  lemma OrdinaryTrans(u: World, v: World, w: World)
    requires Ordinary(u, v) && Ordinary(v, w)
    ensures Ordinary(u, w)
  {
    forall s | s in w.subs && w.subs[s].ref.Some?
      ensures Status(u, s).ref == w.subs[s].ref || Referred(s, PlanKey(s.ns, w.subs[s].ref.value)) in w.trail
    {
      if Status(v, s).ref == w.subs[s].ref {
        assert s in v.subs;
        if Status(u, s).ref != v.subs[s].ref {
          assert Referred(s, PlanKey(s.ns, v.subs[s].ref.value)) in v.trail;
        }
      }
    }
  }

  lemma EnvCr(w: World, e: Env)
    requires e.Mark? || e.Edit?
    ensures Ordinary(w, ApplyEnv(w, e)) && ApplyEnv(w, e).store == w.store && ApplyEnv(w, e).script == w.script
  {
  }

  lemma EnvState(w: World, e: Env)
    requires e.NewPlan? || e.Replicas?
    ensures Ordinary(w, ApplyEnv(w, e)) && ApplyEnv(w, e).store == w.store && ApplyEnv(w, e).script == w.script
  {
  }

  lemma EnvSub(w: World, e: Env)
    requires e.Refer? || e.Install?
    ensures Ordinary(w, ApplyEnv(w, e)) && ApplyEnv(w, e).store == w.store && ApplyEnv(w, e).script == w.script
  {
    if e.Refer? {
      assert ApplyEnv(w, e).trail[|w.trail|] == Referred(e.sub, PlanKey(e.sub.ns, e.name));
    }
  }

  lemma EnvOne(w: World, e: Env)
    ensures Ordinary(w, ApplyEnv(w, e)) && ApplyEnv(w, e).store == w.store && ApplyEnv(w, e).script == w.script
  {
    hide Ordinary, ApplyEnv;
    if e.Mark? || e.Edit? { EnvCr(w, e); }
    else if e.NewPlan? || e.Replicas? { EnvState(w, e); }
    else { EnvSub(w, e); }
  }

  lemma OrdinarySelf(w: World)
    ensures Ordinary(w, w)
  {
  }

  /** Nothing but references enters the history through others. */
  lemma EnvTrail(w: World, e: Env)
    ensures w.trail <= ApplyEnv(w, e).trail
    ensures forall i :: |w.trail| <= i < |ApplyEnv(w, e).trail| ==> ApplyEnv(w, e).trail[i].Referred?
  {
  }

  lemma {:induction false} EnvAll(w: World, es: seq<Env>)
    ensures Ordinary(w, ApplyAll(w, es)) && ApplyAll(w, es).store == w.store && ApplyAll(w, es).script == w.script
    ensures w.trail <= ApplyAll(w, es).trail
    ensures forall i :: |w.trail| <= i < |ApplyAll(w, es).trail| ==> ApplyAll(w, es).trail[i].Referred?
    decreases |es|
  {
    hide Ordinary, ApplyEnv;
    OrdinarySelf(w);
    if es != [] {
      EnvOne(w, es[0]);
      EnvTrail(w, es[0]);
      EnvAll(ApplyEnv(w, es[0]), es[1..]);
      OrdinaryTrans(w, ApplyEnv(w, es[0]), ApplyAll(w, es));
    }
  }

  lemma PopFacts(w: World)
    ensures Ordinary(w, Pop(w)) && Pop(w).store == w.store
    ensures forall i :: |w.trail| <= i < |Pop(w).trail| ==> Pop(w).trail[i].Referred?
    ensures Faulty(Pop(w).script) == Faulty(w.script) - if Next(w).fault == Clean then 0 else 1
    ensures w.script == [] ==> Pop(w) == w
    ensures w.script != [] ==> |Pop(w).script| == |w.script| - 1
  {
    if w.script != [] {
      EnvAll(w.(script := w.script[1..]), w.script[0].env);
      OrdinaryTrans(w, w.(script := w.script[1..]), Pop(w));
    }
  }

  /** A call that leaves the Workshop and the install plans alone is ordinary, whatever its outcome. */
  lemma CallFacts(w: World, store: map<Key, Obj>, verb: Verb, key: Key, out: Outcome)
    ensures var v := Pop(w);
            var rep := Settle(v, v.(store := store), verb, key, out, Next(w).fault);
            && Ordinary(w, rep.w) && Plain(w, rep.w)
            && (rep.w.store == if Next(w).fault == Lost then w.store else store)
            && Faulty(rep.w.script) == Faulty(w.script) - if Next(w).fault == Clean then 0 else 1
    ensures Pop(w).store == w.store
  {
    PopFacts(w);
    var v := Pop(w);
    OrdinaryTrans(w, v, Settle(v, v.(store := store), verb, key, out, Next(w).fault).w);
  }

  /** A call that only reads. */
  lemma ReadFacts(w: World, verb: Verb, key: Key, out: Outcome)
    ensures var rep := Settle(Pop(w), Pop(w), verb, key, out, Next(w).fault);
            Ordinary(w, rep.w) && Plain(w, rep.w) && rep.w.store == w.store
            && Faulty(rep.w.script) == Faulty(w.script) - if Next(w).fault == Clean then 0 else 1
  {
    PopFacts(w);
    assert Pop(w).(store := w.store) == Pop(w);
    CallFacts(w, w.store, verb, key, out);
  }

  lemma GetTame(w: World, k: Key)
    ensures Tame(w, DoGet(w, k).w)
  {
    ReadFacts(w, Get, k, if k in w.store then Ok else NotFound);
    PopFacts(w);
  }

  lemma GetFacts(w: World, k: Key)
    ensures var rep := DoGet(w, k);
            rep.w.store == w.store
            && (rep.out == Ok ==> k in w.store) && (rep.out == NotFound ==> k !in w.store)
            && (Calm(w) ==> Calm(rep.w) && rep.out == if k in w.store then Ok else NotFound)
            && Faulty(rep.w.script) == Faulty(w.script) - if rep.out == OtherError then 1 else 0
  {
    ReadFacts(w, Get, k, if k in w.store then Ok else NotFound);
    PopFacts(w);
  }

  /** A Get uses up one tick, and its answer depends on nothing but the store and that tick's fault. */
  lemma GetTick(w: World, k: Key)
    ensures var g := DoGet(w, k);
            g.w.script == (if w.script == [] then [] else w.script[1..])
            && (g.out == NotFound <==> k !in w.store && Next(w).fault == Clean)
  {
    PopFacts(w);
    if w.script != [] {
      EnvAll(w.(script := w.script[1..]), w.script[0].env);
    }
  }

  lemma CreateTame(w: World, k: Key, o: Obj)
    ensures Tame(w, DoCreate(w, k, o).w)
  {
    CallFacts(w, if k in w.store then w.store else w.store[k := o], Verb.Create, k,
              if k in w.store then AlreadyExists else Ok);
    PopFacts(w);
    assert Pop(w).(store := w.store) == Pop(w);
  }

  lemma CreateFacts(w: World, k: Key, o: Obj)
    ensures var rep := DoCreate(w, k, o);
            (rep.w.store == w.store || (k !in w.store && rep.w.store == w.store[k := o]))
            && (rep.out == Ok ==> k !in w.store && rep.w.store == w.store[k := o])
            && (rep.out == AlreadyExists ==> k in w.store && rep.w.store == w.store)
            && rep.out != NotFound
            && (Calm(w) ==> Calm(rep.w) && rep.out == if k in w.store then AlreadyExists else Ok)
            && Faulty(rep.w.script) <= Faulty(w.script)
  {
    CallFacts(w, if k in w.store then w.store else w.store[k := o], Verb.Create, k,
              if k in w.store then AlreadyExists else Ok);
    PopFacts(w);
    assert Pop(w).(store := w.store) == Pop(w);
  }

  lemma UpdateTame(w: World, k: Key, o: Obj)
    ensures Tame(w, DoUpdate(w, k, o).w)
  {
    CallFacts(w, if k in w.store then w.store[k := o] else w.store, Verb.Update, k,
              if k in w.store then Ok else NotFound);
    PopFacts(w);
    assert Pop(w).(store := w.store) == Pop(w);
  }

  lemma UpdateFacts(w: World, k: Key, o: Obj)
    ensures var rep := DoUpdate(w, k, o);
            (rep.w.store == w.store || (k in w.store && rep.w.store == w.store[k := o]))
            && (rep.out == Ok ==> k in w.store && rep.w.store == w.store[k := o])
            && (Calm(w) ==> Calm(rep.w) && rep.out == if k in w.store then Ok else NotFound)
            && Faulty(rep.w.script) <= Faulty(w.script)
  {
    CallFacts(w, if k in w.store then w.store[k := o] else w.store, Verb.Update, k,
              if k in w.store then Ok else NotFound);
    PopFacts(w);
    assert Pop(w).(store := w.store) == Pop(w);
  }

  lemma DeleteTame(w: World, k: Key)
    ensures Tame(w, DoDelete(w, k).w)
  {
    CallFacts(w, if k in w.store then w.store - {k} else w.store, Verb.Delete, k,
              if k in w.store then Ok else NotFound);
    PopFacts(w);
    assert Pop(w).(store := w.store) == Pop(w);
  }

  lemma DeleteFacts(w: World, k: Key)
    ensures var rep := DoDelete(w, k);
            (rep.w.store == w.store || (k in w.store && rep.w.store == w.store - {k}))
            && (rep.out == Ok ==> k in w.store && rep.w.store == w.store - {k})
            && (Calm(w) ==> Calm(rep.w) && rep.out == if k in w.store then Ok else NotFound)
            && Faulty(rep.w.script) <= Faulty(w.script)
  {
    CallFacts(w, if k in w.store then w.store - {k} else w.store, Verb.Delete, k,
              if k in w.store then Ok else NotFound);
    PopFacts(w);
    assert Pop(w).(store := w.store) == Pop(w);
  }

  lemma LogFacts(w: World, verb: Verb, key: Key, out: Outcome)
    ensures Ordinary(w, Log(w, verb, key, out)) && Log(w, verb, key, out).store == w.store
  {
  }

  lemma NoteFacts(w: World, e: Entry)
    requires !e.Approval? && !e.Called?
    ensures Ordinary(w, Note(w, e)) && Note(w, e).trail[|w.trail|] == e
  {
  }
}
