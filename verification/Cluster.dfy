/** The API client of the reconciler: an object whose methods change the stored cluster state call by call. */
module Cluster {
  import opened World

  class Client {
    var store: map<Key, Obj>
    var cr: Option<Resource>
    var plans: map<Key, InstallPlan>
    var subs: map<Key, SubStatus>
    var ready: map<Key, nat>
    var script: seq<Tick>
    var trail: seq<Entry>

    function State(): World
      reads this
    {
      World(store, cr, plans, subs, ready, script, trail)
    }

    /** Let everyone else act until the next call is served. */
    method Advance() returns (tick: Tick)
      modifies this
      ensures State() == Pop(old(State())) && tick == Next(old(State()))
    {
      tick := QUIET;
      if script != [] {
        tick, script := script[0], script[1..];
        var v := ApplyAll(State(), tick.env);
        store, cr, plans, subs, ready, script, trail := v.store, v.cr, v.plans, v.subs, v.ready, v.script, v.trail;
      }
    }

    method Record(verb: Verb, key: Key, out: Outcome, fault: Fault) returns (seen: Outcome)
      modifies this`trail
      ensures seen == if fault == Clean then out else OtherError
      ensures State() == Log(old(State()), verb, key, seen)
    {
      seen := if fault == Clean then out else OtherError;
      trail := trail + [Called(verb, key, seen, Armed(State()))];
    }

    method Create(k: Key, o: Obj) returns (out: Outcome)
      modifies this
      ensures Reply(State(), out) == DoCreate(old(State()), k, o)
    {
      var tick := Advance();
      if k in store {
        out := Record(Verb.Create, k, AlreadyExists, tick.fault);
      } else {
        if tick.fault != Lost {
          store := store[k := o];
        }
        out := Record(Verb.Create, k, Ok, tick.fault);
      }
    }

    method Get(k: Key) returns (out: Outcome)
      modifies this
      ensures Reply(State(), out) == DoGet(old(State()), k)
    {
      var tick := Advance();
      out := Record(Verb.Get, k, if k in store then Ok else NotFound, tick.fault);
    }

    method Update(k: Key, o: Obj) returns (out: Outcome)
      modifies this
      ensures Reply(State(), out) == DoUpdate(old(State()), k, o)
    {
      var tick := Advance();
      if k !in store {
        out := Record(Verb.Update, k, NotFound, tick.fault);
      } else {
        if tick.fault != Lost {
          store := store[k := o];
        }
        out := Record(Verb.Update, k, Ok, tick.fault);
      }
    }

    method RefusedUpdate(k: Key) returns (out: Outcome)
      modifies this
      ensures Reply(State(), out) == DoRefusedUpdate(old(State()), k)
    {
      var tick := Advance();
      out := Record(Verb.Update, k, OtherError, tick.fault);
    }

    method Delete(k: Key) returns (out: Outcome)
      modifies this
      ensures Reply(State(), out) == DoDelete(old(State()), k)
    {
      var tick := Advance();
      if k !in store {
        out := Record(Verb.Delete, k, NotFound, tick.fault);
      } else {
        if tick.fault != Lost {
          store := store - {k};
        }
        out := Record(Verb.Delete, k, Ok, tick.fault);
      }
    }

    /** Users by label, in whatever order the server returns them. */
    method ListUsers() returns (out: Outcome, items: seq<string>)
      modifies this
      ensures Reply(State(), out) == DoList(old(State()))
      ensures out == Ok ==> Ordering(items, Managed(State().store))
      ensures out != Ok ==> items == []
    {
      var tick := Advance();
      out := Record(Verb.List, USERS, Ok, tick.fault);
      items := [];
      if out == Ok {
        items := InSomeOrder(Managed(store));
      }
    }

    method GetWorkshop() returns (out: Outcome)
      modifies this
      ensures Reply(State(), out) == DoGetWorkshop(old(State()))
    {
      var tick := Advance();
      out := Record(Verb.Get, WORKSHOP, if cr.Some? then Ok else NotFound, tick.fault);
    }

    method UpdateWorkshop(copy: Resource) returns (out: Outcome)
      modifies this
      ensures Reply(State(), out) == DoUpdateWorkshop(old(State()), copy)
    {
      var tick := Advance();
      if cr.None? {
        out := Record(Verb.Update, WORKSHOP, NotFound, tick.fault);
      } else if cr.value.version != copy.version {
        out := Record(Verb.Update, WORKSHOP, OtherError, tick.fault);
      } else {
        if tick.fault != Lost {
          cr := Some(cr.value.(finalizers := copy.finalizers, version := copy.version + 1));
          if cr.value.marked && cr.value.finalizers == [] {
            cr := None;
          }
        }
        out := Record(Verb.Update, WORKSHOP, Ok, tick.fault);
      }
    }

    method GetPlan(plan: Key) returns (out: Outcome)
      modifies this
      ensures Reply(State(), out) == DoGetPlan(old(State()), plan)
    {
      var tick := Advance();
      out := Record(Verb.Get, plan, if plan in plans then Ok else NotFound, tick.fault);
    }

    method ApprovePlan(sub: Key, csv: string, plan: Key) returns (out: Outcome)
      modifies this
      ensures Reply(State(), out) == DoApprovePlan(old(State()), sub, csv, plan)
    {
      var tick := Advance();
      if plan !in plans {
        out := Record(Verb.Update, plan, NotFound, tick.fault);
      } else {
        if tick.fault != Lost {
          plans := plans[plan := plans[plan].(approved := true)];
          trail := trail + [Approval(sub, csv, plan)];
        }
        out := Record(Verb.Update, plan, Ok, tick.fault);
      }
    }

    method Watch(dep: Key) returns (out: Outcome, events: seq<Event>)
      modifies this
      ensures Reply(State(), out) == DoWatch(old(State()), dep) && events == Next(old(State())).events
    {
      var tick := Advance();
      events := tick.events;
      out := Record(Verb.Watch, dep, Ok, tick.fault);
    }

    method GetDeployment(dep: Key) returns (out: Outcome)
      modifies this
      ensures Reply(State(), out) == DoGetDeployment(old(State()), dep)
    {
      var tick := Advance();
      out := Record(Verb.Get, dep, if dep in ready then Ok else NotFound, tick.fault);
    }

    method Remember(e: Entry)
      modifies this`trail
      ensures State() == Note(old(State()), e)
    {
      trail := trail + [e];
    }
  }

  /** Any enumeration of a set: the order of a Go map range or of a list reply. */
  method InSomeOrder(names: set<string>) returns (items: seq<string>)
    ensures Ordering(items, names)
  {
    items := [];
    var todo := names;
    while todo != {}
      invariant todo <= names && Ordering(items, names - todo)
      decreases |todo|
    {
      var n :| n in todo;
      items, todo := items + [n], todo - {n};
    }
  }
}
