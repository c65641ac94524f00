/** The recurring call patterns of the reconcilers as methods on the client, each proved to be one step of a plan. */
module Calls {
  import opened World
  import opened Cluster
  import opened Steps
  import opened Gates
  import opened Plans
  import Strings = Text

  method Ensure(c: Client, k: Key, o: Obj) returns (r: Result)
    modifies c
    ensures Answer(c.State(), r) == Do(EnsureStep(k, o), old(c.State()))
  {
    var out := c.Create(k, o);
    r := if out == Ok || out == AlreadyExists then Done else Failed;
  }

  method Sync(c: Client, k: Key, o: Obj, rule: Rule) returns (r: Result)
    modifies c
    ensures Answer(c.State(), r) == Do(SyncStep(k, o, rule), old(c.State()))
  {
    var out := c.Create(k, o);
    if out == Ok {
      return Done;
    }
    if out != AlreadyExists {
      return Failed;
    }
    out := c.Get(k);
    if out != Ok || k !in c.store {
      return Failed;
    }
    var found := c.store[k];
    var current := Fresh(rule, o, found);
    if rule.Within? && o.Table? && found.Table? {
      current := Strings.IsIntersectMap(o.data, found.data);
    }
    if current {
      return Done;
    }
    out := c.Update(k, Overwrite(rule, o, found));
    r := if out == Ok then Done else Failed;
  }

  method Remove(c: Client, k: Key) returns (r: Result)
    modifies c
    ensures Answer(c.State(), r) == Do(RemoveStep(k), old(c.State()))
  {
    var out := c.Delete(k);
    r := if out == Ok then Done else Failed;
  }

  method Drop(c: Client, k: Key) returns (r: Result)
    modifies c
    ensures Answer(c.State(), r) == Do(DropStep(k), old(c.State()))
  {
    var out := c.Get(k);
    if out == Ok {
      r := Remove(c, k);
    } else {
      r := Done;
    }
  }

  method Clone(c: Client, k: Key, source: Key, user: string) returns (r: Result)
    modifies c
    ensures Answer(c.State(), r) == Do(CloneStep(k, source, user), old(c.State()))
  {
    var out := c.Get(k);
    if out == Ok {
      return Done;
    }
    out := c.Get(source);
    if out == Ok && source in c.store {
      var users := if c.store[source].Names? then c.store[source].items else [];
      var present := Strings.StringInSlice(user, users);
      if !present {
        users := users + [user];
      }
      r := Ensure(c, k, Names(users));
    } else {
      var _ := c.RefusedUpdate(Key(SecurityContextConstraints, "", ""));
      r := Failed;
    }
  }

  method CallForeign(c: Client, name: string) returns (r: Result)
    modifies c
    ensures Answer(c.State(), r) == Do(ForeignStep(name), old(c.State()))
  {
    var out, _ := c.Watch(Key(Workshop, "", name));
    r := if out == Ok then Done else Failed;
  }

  method ApproveInstallPlan(c: Client, csv: string, sub: Key) returns (r: Result)
    modifies c
    ensures Answer(c.State(), r) == Do(ApproveStep(sub, csv), old(c.State()))
  {
    var out := c.Get(sub);
    if out != Ok {
      return Requeue;
    }
    var st := if sub in c.subs then c.subs[sub] else SubStatus("", None);
    if (csv == "" && st.installed == "") || (csv != "" && st.installed != csv) {
      if st.ref.None? {
        return Requeue;
      }
      var plan := PlanKey(sub.ns, st.ref.value);
      out := c.GetPlan(plan);
      if out != Ok || plan !in c.plans {
        return Requeue;
      }
      var found := c.plans[plan];
      var listed := Strings.StringInSlice(csv, found.csvs);
      if listed && !found.approved {
        out := c.ApprovePlan(sub, csv, plan);
        if out != Ok {
          return Requeue;
        }
      }
    }
    c.Remember(Cleared(sub));
    r := Done;
  }

  method GetDeploymentStatus(c: Client, dep: Key) returns (r: Result)
    modifies c
    ensures Answer(c.State(), r) == Do(AwaitStep(dep), old(c.State()))
  {
    var out, events := c.Watch(dep);
    if out != Ok {
      return Requeue;
    }
    ghost var start := c.State();
    for i := 0 to |events|
      invariant Poll(start, dep, events, 0) == Poll(c.State(), dep, events, i)
    {
      out := c.GetDeployment(dep);
      var n := if out == Ok && dep in c.ready then c.ready[dep] else 0;
      c.Remember(Observed(dep, n));
      if out != Ok {
        return Requeue;
      }
      if n == 1 {
        return Done;
      }
      if events[i].Modified? {
        c.Remember(Observed(dep, events[i].ready));
        if events[i].ready == 1 {
          return Done;
        }
      }
    }
    out := c.GetDeployment(dep);
    var n := if out == Ok && dep in c.ready then c.ready[dep] else 0;
    c.Remember(Observed(dep, n));
    r := if n == 1 then Done else Requeue;
  }
}
