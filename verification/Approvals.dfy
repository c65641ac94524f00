/** What an approval that returns without error has achieved. */
module Approvals {
  import opened World
  import opened Steps
  import opened Gates
  import opened Replicas

  /** The subscription still waits for the version: none installed and none pinned, or another one installed. */
  ghost predicate Waiting(st: SubStatus, csv: string) {
    st.installed == "" || (csv != "" && st.installed != csv)
  }

  /** The install plan a subscription with this status refers to is there, and approved if it lists the version. */
  ghost predicate PlanApproved(w: World, sub: Key, st: SubStatus, csv: string) {
    && st.ref.Some?
    && var plan := Key(Plan, sub.ns, st.ref.value);
       plan in w.plans && (csv in w.plans[plan].csvs ==> w.plans[plan].approved)
  }

  lemma ApprovedPlan(w: World, sub: Key, csv: string, plan: Key)
    requires plan in w.plans
    ensures var u := DoApprovePlan(w, sub, csv, plan);
            u.out == Ok ==> plan in u.w.plans && u.w.plans[plan].approved
  {
    PopFacts(w);
    hide Pop;
  }

  /** Whatever fails and whoever interferes: if the call returns without error, then the subscription was not waiting
      when it was read, or the plan it referred to is there, and approved if it lists the version. */
  lemma ApprovalHolds(w: World, sub: Key, csv: string)
    requires Approve(w, sub, csv).r == Done
    ensures var st := Status(DoGet(w, sub).w, sub);
            !Waiting(st, csv) || PlanApproved(Approve(w, sub, csv).w, sub, st, csv)
  {
    hide DoGet, DoGetPlan, DoApprovePlan, Status;
    var g := DoGet(w, sub);
    var st := Status(g.w, sub);
    if Pending(st, csv) && st.ref.Some? {
      var plan := PlanKey(sub.ns, st.ref.value);
      ApprovedPlan(DoGetPlan(g.w, plan).w, sub, csv, plan);
    }
  }

  /* ---------- With nobody else acting ---------- */

  lemma QuietPop(w: World)
    requires Quiet(w.script)
    ensures Pop(w) == w.(script := Pop(w).script) && Quiet(Pop(w).script) && Next(w).fault == Clean
  {
  }

  /** What one quiet call leaves: the same state, a shorter quiet script, and one more entry. */
  ghost predicate Undisturbed(w: World, v: World) {
    && v.store == w.store && v.cr == w.cr && v.plans == w.plans && v.subs == w.subs && v.ready == w.ready
    && Quiet(v.script)
  }

  lemma QuietGet(w: World, k: Key)
    requires Quiet(w.script)
    ensures var g := DoGet(w, k);
            Undisturbed(w, g.w) && g.out == if k in w.store then Ok else NotFound
  {
    QuietPop(w);
    hide Pop, Next, Quiet;
  }

  lemma QuietGetPlan(w: World, plan: Key)
    requires Quiet(w.script)
    ensures var g := DoGetPlan(w, plan);
            Undisturbed(w, g.w) && g.out == if plan in w.plans then Ok else NotFound
  {
    QuietPop(w);
    hide Pop, Next, Quiet;
  }

  lemma QuietApprovePlan(w: World, sub: Key, csv: string, plan: Key)
    requires Quiet(w.script) && plan in w.plans
    ensures var u := DoApprovePlan(w, sub, csv, plan);
            u.out == Ok && u.w.plans == w.plans[plan := InstallPlan(w.plans[plan].csvs, true)]
            && u.w.store == w.store && u.w.subs == w.subs && u.w.cr == w.cr
  {
    QuietPop(w);
    hide Pop, Next, Quiet;
  }

  /** With nobody else acting the call succeeds exactly when the subscription is there and does not wait, or refers to a
      plan that is there; and its whole effect is to approve that plan if it lists the version. */
  lemma QuietApproval(w: World, sub: Key, csv: string)
    requires Quiet(w.script)
    ensures var a, st := Approve(w, sub, csv), Status(w, sub);
            var found := st.ref.Some? && Key(Plan, sub.ns, st.ref.value) in w.plans;
            && (a.r == Done <==> sub in w.store && (!Waiting(st, csv) || found))
            && a.w.store == w.store && a.w.subs == w.subs && a.w.cr == w.cr
            && a.w.plans ==
               if sub in w.store && Waiting(st, csv) && found && csv in w.plans[Key(Plan, sub.ns, st.ref.value)].csvs
               then w.plans[Key(Plan, sub.ns, st.ref.value) :=
                            InstallPlan(w.plans[Key(Plan, sub.ns, st.ref.value)].csvs, true)]
               else w.plans
  {
    hide DoGet, DoGetPlan, DoApprovePlan, Quiet;
    var g := DoGet(w, sub);
    QuietGet(w, sub);
    var st := Status(g.w, sub);
    assert st == Status(w, sub);
    if sub in w.store && Pending(st, csv) && st.ref.Some? {
      var plan := PlanKey(sub.ns, st.ref.value);
      var p := DoGetPlan(g.w, plan);
      QuietGetPlan(g.w, plan);
      if plan in w.plans {
        QuietApprovePlan(p.w, sub, csv, plan);
        if w.plans[plan].approved {
          assert w.plans[plan := InstallPlan(w.plans[plan].csvs, true)] == w.plans;
        }
      }
    }
  }
}
