/** Install approval and the readiness gate. */
module Gates {
  import opened World
  import opened Steps

  /* ---------- ApproveInstallPlan ---------- */

  predicate Pending(st: SubStatus, csv: string) {
    (csv == "" && st.installed == "") || (csv != "" && st.installed != csv)
  }

  /** An error of the approval becomes a requeue in every caller. */
  function Approve(w: World, sub: Key, csv: string): Answer {
    var g := DoGet(w, sub);
    var st := Status(g.w, sub);
    if g.out != Ok then Answer(g.w, Requeue)
    else if !Pending(st, csv) then Answer(Note(g.w, Cleared(sub)), Done)
    else if st.ref.None? then Answer(g.w, Requeue)
    else
      var plan := PlanKey(sub.ns, st.ref.value);
      var p := DoGetPlan(g.w, plan);
      if p.out != Ok || plan !in p.w.plans then Answer(p.w, Requeue)
      else if csv in p.w.plans[plan].csvs && !p.w.plans[plan].approved then
        var u := DoApprovePlan(p.w, sub, csv, plan);
        if u.out == Ok then Answer(Note(u.w, Cleared(sub)), Done) else Answer(u.w, Requeue)
      else Answer(Note(p.w, Cleared(sub)), Done)
  }

  /* ---------- GetDeploymentStatus ---------- */

  function ReadyCount(w: World, dep: Key): nat {
    if dep in w.ready then w.ready[dep] else 0
  }

  /** The watch loop from the i-th event on: a Get before each event, the event itself when it is a modification, and
      one last Get after the stream has ended. */
  function Poll(w: World, dep: Key, events: seq<Event>, i: nat): Answer
    requires i <= |events|
    decreases |events| - i
  {
    var g := DoGetDeployment(w, dep);
    var n := if g.out == Ok then ReadyCount(g.w, dep) else 0;
    var v := Note(g.w, Observed(dep, n));
    if n == 1 then Answer(v, Done)
    else if i == |events| || g.out != Ok then Answer(v, Requeue)
    else if events[i].Modified? then
      var u := Note(v, Observed(dep, events[i].ready));
      if events[i].ready == 1 then Answer(u, Done) else Poll(u, dep, events, i + 1)
    else Poll(v, dep, events, i + 1)
  }

  /** A watch that cannot be opened crashes the operator; either way the pass is over. */
  function Await(w: World, dep: Key): Answer {
    var s := DoWatch(w, dep);
    if s.out != Ok then Answer(s.w, Requeue) else Poll(s.w, dep, Next(w).events, 0)
  }

  /** One ready replica of the deployment was seen between two points of the history. */
  ghost predicate SawReady(w: World, v: World, dep: Key) {
    exists i :: |w.trail| <= i < |v.trail| && v.trail[i] == Observed(dep, 1)
  }

  /** One look at the deployment: nothing but the call itself and the observation enter the history. */
  lemma LookFacts(w: World, dep: Key, n: nat)
    ensures var g := DoGetDeployment(w, dep);
            var v := Note(g.w, Observed(dep, n));
            Ordinary(w, v) && v.store == w.store && (SawReady(w, v, dep) <==> n == 1)
  {
    var g := DoGetDeployment(w, dep);
    ReadFacts(w, Verb.Get, dep, if dep in Pop(w).ready then Ok else NotFound);
    NoteFacts(g.w, Observed(dep, n));
    OrdinaryTrans(w, g.w, Note(g.w, Observed(dep, n)));
  }

  lemma SawSplit(u: World, v: World, w: World, dep: Key)
    requires u.trail <= v.trail <= w.trail
    ensures SawReady(u, w, dep) <==> SawReady(u, v, dep) || SawReady(v, w, dep)
  {
    if SawReady(u, v, dep) {
      var i :| |u.trail| <= i < |v.trail| && v.trail[i] == Observed(dep, 1);
      assert w.trail[i] == Observed(dep, 1);
    }
    if SawReady(u, w, dep) {
      var i :| |u.trail| <= i < |w.trail| && w.trail[i] == Observed(dep, 1);
      assert i < |v.trail| ==> v.trail[i] == Observed(dep, 1);
    }
  }

  lemma {:induction false} PollExact(w: World, dep: Key, events: seq<Event>, i: nat)
    requires i <= |events|
    ensures var a := Poll(w, dep, events, i);
            Ordinary(w, a.w) && a.w.store == w.store && (a.r == Done <==> SawReady(w, a.w, dep))
            && (a.r == Done || a.r == Requeue)
    decreases |events| - i
  {
    var g := DoGetDeployment(w, dep);
    var n := if g.out == Ok then ReadyCount(g.w, dep) else 0;
    var v := Note(g.w, Observed(dep, n));
    LookFacts(w, dep, n);
    var a := Poll(w, dep, events, i);
    if n != 1 && i < |events| && g.out == Ok {
      if events[i].Modified? {
        PollEvent(w, v, dep, events, i);
      } else {
        PollExact(v, dep, events, i + 1);
        OrdinaryTrans(w, v, a.w);
        SawSplit(w, v, a.w, dep);
      }
    }
  }

  lemma {:induction false} PollEvent(w: World, v: World, dep: Key, events: seq<Event>, i: nat)
    requires i < |events| && events[i].Modified?
    requires Ordinary(w, v) && v.store == w.store && !SawReady(w, v, dep)
    ensures var u := Note(v, Observed(dep, events[i].ready));
            var a := if events[i].ready == 1 then Answer(u, Done) else Poll(u, dep, events, i + 1);
            Ordinary(w, a.w) && a.w.store == w.store && (a.r == Done <==> SawReady(w, a.w, dep))
            && (a.r == Done || a.r == Requeue)
    decreases |events| - i, 0
  {
    var u := Note(v, Observed(dep, events[i].ready));
    NoteFacts(v, Observed(dep, events[i].ready));
    OrdinaryTrans(w, v, u);
    SawSplit(w, v, u, dep);
    if events[i].ready != 1 {
      PollExact(u, dep, events, i + 1);
      var a := Poll(u, dep, events, i + 1);
      OrdinaryTrans(w, u, a.w);
      SawSplit(w, u, a.w, dep);
    }
  }

  /** The gate opens exactly when one ready replica is seen during the call, for every event stream. */
  lemma GateExact(w: World, dep: Key)
    ensures var a := Await(w, dep);
            Ordinary(w, a.w) && a.w.store == w.store && (a.r == Done <==> SawReady(w, a.w, dep))
            && (a.r == Done || a.r == Requeue)
  {
    var s := DoWatch(w, dep);
    ReadFacts(w, Verb.Watch, dep, Ok);
    if s.out == Ok {
      var a := Await(w, dep);
      PollExact(s.w, dep, Next(w).events, 0);
      OrdinaryTrans(w, s.w, a.w);
      SawSplit(w, s.w, a.w, dep);
    }
  }

  /* ---------- Approval safety ---------- */

  /** Every reference a subscription holds was given by OLM, every recorded approval was made for a plan that a pinned
      subscription had referenced before and that lists the pinned version, and every approved plan has such a record.
      */
  ghost predicate Justified(w: World, pins: set<(Key, string)>) {
    && (forall s :: s in w.subs && w.subs[s].ref.Some? ==> Referred(s, PlanKey(s.ns, w.subs[s].ref.value)) in w.trail)
    && (forall i :: 0 <= i < |w.trail| && w.trail[i].Approval? ==>
         var e := w.trail[i];
         && (e.sub, e.csv) in pins
         && Referred(e.sub, e.plan) in w.trail[..i]
         && e.plan in w.plans && e.csv in w.plans[e.plan].csvs)
    && (forall p :: p in w.plans && w.plans[p].approved ==>
         exists i :: 0 <= i < |w.trail| && w.trail[i].Approval? && w.trail[i].plan == p)
  }

  lemma OrdinaryJustified(w: World, v: World, pins: set<(Key, string)>)
    requires Justified(w, pins) && Ordinary(w, v)
    ensures Justified(v, pins)
  {
    forall i | 0 <= i < |v.trail| && v.trail[i].Approval?
      ensures var e := v.trail[i];
              (e.sub, e.csv) in pins && Referred(e.sub, e.plan) in v.trail[..i]
              && e.plan in v.plans && e.csv in v.plans[e.plan].csvs
    {
      assert v.trail[i] == w.trail[i] && v.trail[..i] == w.trail[..i];
    }
    forall p | p in v.plans && v.plans[p].approved
      ensures exists i :: 0 <= i < |v.trail| && v.trail[i].Approval? && v.trail[i].plan == p
    {
      var i :| 0 <= i < |w.trail| && w.trail[i].Approval? && w.trail[i].plan == p;
      assert v.trail[i] == w.trail[i];
    }
  }

  /** The approval itself, on a plan the subscription has been seen to reference. */
  function Approved(w: World, sub: Key, csv: string, plan: Key): World
    requires plan in w.plans
  {
    w.(plans := w.plans[plan := w.plans[plan].(approved := true)], trail := w.trail + [Approval(sub, csv, plan)])
  }

  lemma ApprovalTrail(w: World, sub: Key, csv: string, plan: Key)
    requires plan in w.plans
    ensures var u := Approved(w, sub, csv, plan);
            && Follows(w, u) && |u.trail| == |w.trail| + 1
            && u.trail[|w.trail|] == Approval(sub, csv, plan) && u.trail[..|w.trail|] == w.trail
            && forall i :: 0 <= i < |w.trail| ==> u.trail[i] == w.trail[i] && u.trail[..i] == w.trail[..i]
  {
  }

  lemma ApprovalJustified(w: World, sub: Key, csv: string, plan: Key, pins: set<(Key, string)>)
    requires Justified(w, pins) && (sub, csv) in pins && Referred(sub, plan) in w.trail
    requires plan in w.plans && csv in w.plans[plan].csvs
    ensures Justified(Approved(w, sub, csv, plan), pins) && Follows(w, Approved(w, sub, csv, plan))
  {
    var u := Approved(w, sub, csv, plan);
    ApprovalTrail(w, sub, csv, plan);
    hide Follows;
    forall p | p in u.plans && u.plans[p].approved
      ensures exists i :: 0 <= i < |u.trail| && u.trail[i].Approval? && u.trail[i].plan == p
    {
      if p != plan {
        var i :| 0 <= i < |w.trail| && w.trail[i].Approval? && w.trail[i].plan == p;
        assert u.trail[i] == w.trail[i];
      }
    }
  }

  /** What every call around an approval keeps. */
  ghost predicate Safely(w: World, v: World, pins: set<(Key, string)>) {
    Justified(v, pins) && Follows(w, v) && v.store == w.store
  }

  lemma SafelyThen(u: World, v: World, w: World, pins: set<(Key, string)>)
    requires Safely(u, v, pins) && Ordinary(v, w) && w.store == v.store
    ensures Safely(u, w, pins)
  {
    OrdinaryJustified(v, w, pins);
    FollowsTrans(u, v, w);
  }

  lemma ApproveCallSafe(w: World, sub: Key, csv: string, plan: Key, pins: set<(Key, string)>)
    requires Justified(w, pins) && (sub, csv) in pins && Referred(sub, plan) in w.trail
    requires plan in w.plans && csv in w.plans[plan].csvs
    ensures Safely(w, DoApprovePlan(w, sub, csv, plan).w, pins)
  {
    PopFacts(w);
    var v := Pop(w);
    SafelyThen(w, w, v, pins);
    ApprovalJustified(v, sub, csv, plan, pins);
    var u := Approved(v, sub, csv, plan);
    FollowsTrans(w, v, u);
    var at := if Next(w).fault == Lost then v else u;
    assert Safely(w, at, pins);
    var out := DoApprovePlan(w, sub, csv, plan);
    LogFacts(at, Verb.Update, plan, out.out);
    SafelyThen(w, at, Log(at, Verb.Update, plan, out.out), pins);
  }

  /** Approval safety of one call, with OLM acting between its reads and its write. */
  lemma ApproveSafe(w: World, sub: Key, csv: string, pins: set<(Key, string)>)
    requires Justified(w, pins) && (sub, csv) in pins
    ensures Safely(w, Approve(w, sub, csv).w, pins)
  {
    var g := DoGet(w, sub);
    GetFacts(w, sub);
    GetTame(w, sub);
    SafelyThen(w, w, g.w, pins);
    var st := Status(g.w, sub);
    if g.out == Ok {
      if !Pending(st, csv) {
        NoteFacts(g.w, Cleared(sub));
        SafelyThen(w, g.w, Note(g.w, Cleared(sub)), pins);
      } else if st.ref.Some? {
        ApproveRefSafe(w, g.w, sub, csv, PlanKey(sub.ns, st.ref.value), pins);
      }
    }
  }

  lemma ApproveRefSafe(w: World, g: World, sub: Key, csv: string, plan: Key, pins: set<(Key, string)>)
    requires Safely(w, g, pins) && (sub, csv) in pins && Referred(sub, plan) in g.trail
    ensures var p := DoGetPlan(g, plan);
            Safely(w, p.w, pins) && Safely(w, Note(p.w, Cleared(sub)), pins)
    ensures var p := DoGetPlan(g, plan);
            plan in p.w.plans && csv in p.w.plans[plan].csvs ==>
              var u := DoApprovePlan(p.w, sub, csv, plan);
              Safely(w, u.w, pins) && Safely(w, Note(u.w, Cleared(sub)), pins)
  {
    var p := DoGetPlan(g, plan);
    ReadFacts(g, Verb.Get, plan, if plan in Pop(g).plans then Ok else NotFound);
    SafelyThen(w, g, p.w, pins);
    NoteFacts(p.w, Cleared(sub));
    SafelyThen(w, p.w, Note(p.w, Cleared(sub)), pins);
    if plan in p.w.plans && csv in p.w.plans[plan].csvs {
      var u := DoApprovePlan(p.w, sub, csv, plan);
      ApproveCallSafe(p.w, sub, csv, plan, pins);
      FollowsTrans(w, p.w, u.w);
      NoteFacts(u.w, Cleared(sub));
      SafelyThen(w, u.w, Note(u.w, Cleared(sub)), pins);
    }
  }

  lemma ApprovePlanFollows(w: World, sub: Key, csv: string, plan: Key)
    ensures Follows(w, DoApprovePlan(w, sub, csv, plan).w) && DoApprovePlan(w, sub, csv, plan).w.store == w.store
  {
    PopFacts(w);
    var v := Pop(w);
    var u := if plan in v.plans && Next(w).fault != Lost
             then v.(plans := v.plans[plan := v.plans[plan].(approved := true)],
                 trail := v.trail + [Approval(sub, csv, plan)])
             else v;
    assert Follows(v, u);
    FollowsTrans(w, v, u);
    var out := DoApprovePlan(w, sub, csv, plan);
    LogFacts(u, Verb.Update, plan, out.out);
    FollowsTrans(w, u, Log(u, Verb.Update, plan, out.out));
  }

  /** What every call around an approval keeps without looking at its pins. */
  ghost predicate Along(w: World, v: World) {
    Follows(w, v) && v.store == w.store
  }

  lemma AlongNote(w: World, v: World, sub: Key)
    requires Along(w, v)
    ensures Along(w, Note(v, Cleared(sub)))
  {
    NoteFacts(v, Cleared(sub));
    FollowsTrans(w, v, Note(v, Cleared(sub)));
  }

  lemma AlongThen(u: World, v: World, w: World)
    requires Along(u, v) && Along(v, w)
    ensures Along(u, w)
  {
    FollowsTrans(u, v, w);
  }

  lemma AlongGet(w: World, k: Key)
    ensures Along(w, DoGet(w, k).w)
  {
    GetFacts(w, k);
    GetTame(w, k);
  }

  lemma AlongGetPlan(w: World, plan: Key)
    ensures Along(w, DoGetPlan(w, plan).w)
  {
    ReadFacts(w, Verb.Get, plan, if plan in Pop(w).plans then Ok else NotFound);
  }

  /** Approval never reverts and never touches the store, whatever OLM does meanwhile. */
  lemma ApproveFollows(w: World, sub: Key, csv: string)
    ensures Follows(w, Approve(w, sub, csv).w) && Approve(w, sub, csv).w.store == w.store
  {
    hide DoGet, DoGetPlan, DoApprovePlan, Note, Follows;
    var g := DoGet(w, sub);
    AlongGet(w, sub);
    AlongNote(w, g.w, sub);
    var st := Status(g.w, sub);
    if g.out == Ok && Pending(st, csv) && st.ref.Some? {
      var plan := PlanKey(sub.ns, st.ref.value);
      var p := DoGetPlan(g.w, plan);
      AlongGetPlan(g.w, plan);
      AlongThen(w, g.w, p.w);
      AlongNote(w, p.w, sub);
      var u := DoApprovePlan(p.w, sub, csv, plan);
      ApprovePlanFollows(p.w, sub, csv, plan);
      AlongThen(w, p.w, u.w);
      AlongNote(w, u.w, sub);
    }
  }
}
