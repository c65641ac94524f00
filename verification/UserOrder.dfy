/** The order of work in the user stage, under any faults: removals, additions, and the secret last. */
module UserOrder {
  import opened World
  import opened Steps
  import opened Plans
  import opened Progress
  import opened Frame
  import opened Htpasswd
  import opened Accounts
  import opened Finalizer
  import opened GateRuns
  import opened Removal
  import Convergence
  import UserStage

  /* ---------- Removals ---------- */

  lemma RemovalsTaking(items: seq<string>, wanted: set<string>)
    ensures AllTaking(Flat(UserStage.Removals(items, wanted), 0))
  {
    var blocks := UserStage.Removals(items, wanted);
    forall j | 0 <= j < |blocks| ensures AllTaking(blocks[j]) { }
    FlatTaking(blocks, 0);
  }

  lemma RemovalStep(items: seq<string>, wanted: set<string>, name: string, i: nat)
    requires name in items && name !in wanted && i < 4
    ensures RemoveStep(Link(name, i)) in Flat(UserStage.Removals(items, wanted), 0)
  {
    hide Link;
    var blocks, s := UserStage.Removals(items, wanted), RemoveStep(Link(name, i));
    var j :| 0 <= j < |items| && items[j] == name;
    assert s in UserStage.RemoveBlock(name) by { InRemoveBlock(name, i); }
    assert s in blocks[j];
    InFlat(blocks, 0, s);
  }

  lemma InRemoveBlock(name: string, i: nat)
    requires i < 4
    ensures RemoveStep(Link(name, i)) in UserStage.RemoveBlock(name)
  {
    assert UserStage.RemoveBlock(name)[4 - i] == RemoveStep(Link(name, i));
  }

  /** Removals that are done have taken every object of every listed user that is not wanted. */
  lemma RemovalsTook(items: seq<string>, wanted: set<string>, w: World, name: string, i: nat)
    requires Run(Flat(UserStage.Removals(items, wanted), 0), 0, w).r == Done
    requires name in items && name !in wanted && i < 4
    ensures Link(name, i) !in Run(Flat(UserStage.Removals(items, wanted), 0), 0, w).w.store
  {
    hide Link, Run, Flat, UserStage.Removals;
    var p := Flat(UserStage.Removals(items, wanted), 0);
    RemovalsTaking(items, wanted);
    RemovalStep(items, wanted, name, i);
    var h :| 0 <= h < |p| && p[h] == RemoveStep(Link(name, i));
    RunTook(p, 0, h, w);
  }

  /* ---------- Additions ---------- */

  lemma AdditionSteps(order: seq<string>, items: seq<string>, s: Step)
    requires s in Flat(UserStage.Additions(order, items), 0)
    ensures exists n :: n in order && n !in items && s in UserStage.AddBlock(n)
  {
    hide UserStage.AddBlock;
    var blocks := UserStage.Additions(order, items);
    InFlat(blocks, 0, s);
    var j :| 0 <= j < |blocks| && s in blocks[j];
    assert order[j] in order;
  }

  lemma AddAvoids(n: string, s: Step, name: string, i: nat)
    requires s in UserStage.AddBlock(n) && n != name && i < 4
    ensures Avoids(s, Link(name, i)) && Builder(s)
  {
    LinkInjective(n, 0, name, i);
    LinkInjective(n, 1, name, i);
    LinkInjective(n, 2, name, i);
    LinkInjective(n, 3, name, i);
    assert Link(n, 0) == UserKey(n) && Link(n, 1) == UserStage.Binding(n) && Link(n, 2) == UserStage.IdentityKey(n)
        && Link(n, 3) == UserStage.MappingKey(n);
    hide Link;
  }

  lemma AdditionsAvoid(order: seq<string>, items: seq<string>, name: string, i: nat)
    requires name !in order && i < 4
    ensures PlanAvoids(Flat(UserStage.Additions(order, items), 0), Link(name, i))
  {
    hide Link, Avoids, UserStage.Additions, Flat, UserStage.AddBlock;
    var p := Flat(UserStage.Additions(order, items), 0);
    forall j | 0 <= j < |p| ensures Avoids(p[j], Link(name, i)) {
      AdditionSteps(order, items, p[j]);
      var n :| n in order && n !in items && p[j] in UserStage.AddBlock(n);
      AddAvoids(n, p[j], name, i);
    }
  }

  lemma AdditionsBuild(order: seq<string>, items: seq<string>)
    ensures Building(Flat(UserStage.Additions(order, items), 0))
  {
    hide UserStage.Additions, Flat;
    var p := Flat(UserStage.Additions(order, items), 0);
    forall j | 0 <= j < |p| ensures Builder(p[j]) {
      AdditionSteps(order, items, p[j]);
    }
  }

  lemma AdditionStep(order: seq<string>, items: seq<string>, name: string, i: nat) returns (h: nat)
    requires name in order && name !in items && i < 4
    ensures var p := Flat(UserStage.Additions(order, items), 0); h < |p| && Makes(p[h]) == Some(Link(name, i))
  {
    hide Link;
    var blocks := UserStage.Additions(order, items);
    var j :| 0 <= j < |order| && order[j] == name;
    var s := AddsLink(name, i);
    assert s in blocks[j];
    InFlat(blocks, 0, s);
    var p := Flat(blocks, 0);
    h :| 0 <= h < |p| && p[h] == s;
  }

  lemma AddsLink(name: string, i: nat) returns (s: Step)
    requires i < 4
    ensures s in UserStage.AddBlock(name) && Makes(s) == Some(Link(name, i))
  {
    var b := UserStage.AddBlock(name);
    s := b[if i < 2 then i else i + 1];
  }

  /** Additions that are done have completed every wanted user that was not listed. */
  lemma AdditionsMade(order: seq<string>, items: seq<string>, w: World, name: string, i: nat)
    requires Run(Flat(UserStage.Additions(order, items), 0), 0, w).r == Done
    requires name in order && name !in items && i < 4
    ensures Link(name, i) in Run(Flat(UserStage.Additions(order, items), 0), 0, w).w.store
  {
    hide Link, Run, Flat, UserStage.Additions;
    AdditionsBuild(order, items);
    var h := AdditionStep(order, items, name, i);
    RunMade(Flat(UserStage.Additions(order, items), 0), h, w);
  }

  /* ---------- The stage ---------- */

  /** The worlds behind the removals and behind the additions, as far as the stage gets. */
  ghost function AfterRemoving(spec: Spec, ch: UserStage.Choice, w: World): Answer {
    Run(Flat(UserStage.Removals(ch.items, Wanted(spec.prefix, spec.users)), 0), 0, DoList(w).w)
  }

  ghost function AfterAdding(spec: Spec, ch: UserStage.Choice, w: World): Answer {
    Run(Flat(UserStage.Additions(ch.order, ch.items), 0), 0, AfterRemoving(spec, ch, w).w)
  }

  lemma StageParts(spec: Spec, ch: UserStage.Choice, w: World)
    ensures var a, b := AfterRemoving(spec, ch, w), AfterAdding(spec, ch, w);
            UserStage.Stage(spec, ch, w) ==
            if a.r != Done then a
            else if b.r != Done then b
            else SecretStep(b.w, File(ch.lines, ch.hash), spec.users, spec.prefix)
  {
    hide Do, Run, Flat, DoList, UserStage.Removals, UserStage.Additions, File, SecretStep;
    var a := AfterRemoving(spec, ch, w);
    if a.r == Done {
      UserStage.AfterRemovals(spec, ch, w, a.w);
      Convergence.DoSecret(spec, ch, AfterAdding(spec, ch, w).w);
    } else {
      UserStage.EarlyEnd(spec, ch, w);
    }
  }

  /** Until the removals are done nothing is added. */
  lemma NothingAdded(spec: Spec, ch: UserStage.Choice, w: World, k: Key)
    requires k in AfterRemoving(spec, ch, w).w.store
    ensures k in w.store
  {
    hide Run, Flat, DoList, UserStage.Removals;
    ListKeeps(w);
    RemovalsTaking(ch.items, Wanted(spec.prefix, spec.users));
    RunShrinks(Flat(UserStage.Removals(ch.items, Wanted(spec.prefix, spec.users)), 0), 0, DoList(w).w);
  }

  /** Removals first: whatever fails, if any object is new after the stage, every listed user that is not wanted is gone
      with all four objects. */
  lemma RemovedBeforeAdded(spec: Spec, ch: UserStage.Choice, w: World, k: Key, name: string, i: nat)
    requires UserStage.Possible(spec, ch, w) && k !in w.store && k in UserStage.Stage(spec, ch, w).w.store
    requires name in ch.items && name !in Wanted(spec.prefix, spec.users) && i < 4
    ensures Link(name, i) !in UserStage.Stage(spec, ch, w).w.store
  {
    hide Do, Run, Flat, DoList, UserStage.Removals, UserStage.Additions, File, SecretStep, Wanted, Link,
         UserStage.Stage;
    var a, b := AfterRemoving(spec, ch, w), AfterAdding(spec, ch, w);
    StageParts(spec, ch, w);
    if a.r != Done { NothingAdded(spec, ch, w, k); }
    assert a.r == Done;
    RemovalsTook(ch.items, Wanted(spec.prefix, spec.users), DoList(w).w, name, i);
    assert name !in ch.order;
    AdditionsAvoid(ch.order, ch.items, name, i);
    RunAvoids(Flat(UserStage.Additions(ch.order, ch.items), 0), 0, a.w, Link(name, i));
    LinkInjective(name, i, name, i);
    SecretAvoids(b.w, File(ch.lines, ch.hash), spec.users, spec.prefix, Link(name, i));
  }

  /** The secret last: whatever fails, if the stage has touched the secret, every wanted user that was not listed is
      there with all four objects, and every listed user that is not wanted is gone. */
  lemma SecretLast(spec: Spec, ch: UserStage.Choice, w: World, name: string, i: nat)
    requires UserStage.Possible(spec, ch, w) && !SameAt(w.store, UserStage.Stage(spec, ch, w).w.store, SECRET) && i < 4
    ensures name in Wanted(spec.prefix, spec.users) && name !in ch.items ==>
              Link(name, i) in UserStage.Stage(spec, ch, w).w.store
    ensures name !in Wanted(spec.prefix, spec.users) && name in ch.items ==>
              Link(name, i) !in UserStage.Stage(spec, ch, w).w.store
  {
    hide Do, Run, Flat, DoList, UserStage.Removals, UserStage.Additions, File, SecretStep, Wanted, Link,
         UserStage.Stage;
    var a, b := AfterRemoving(spec, ch, w), AfterAdding(spec, ch, w);
    StageParts(spec, ch, w);
    ListKeeps(w);
    RemovalBlocks(ch.items, Wanted(spec.prefix, spec.users));
    AdditionBlocks(ch.order, ch.items);
    Convergence.BlocksAvoidSecret(UserStage.Removals(ch.items, Wanted(spec.prefix, spec.users)), 0, DoList(w).w);
    Convergence.BlocksAvoidSecret(UserStage.Additions(ch.order, ch.items), 0, a.w);
    assert a.r == Done && b.r == Done;
    LinkInjective(name, i, name, i);
    SecretAvoids(b.w, File(ch.lines, ch.hash), spec.users, spec.prefix, Link(name, i));
    if name in Wanted(spec.prefix, spec.users) && name !in ch.items {
      AdditionsMade(ch.order, ch.items, a.w, name, i);
    }
    if name !in Wanted(spec.prefix, spec.users) && name in ch.items {
      RemovalsTook(ch.items, Wanted(spec.prefix, spec.users), DoList(w).w, name, i);
      assert name !in ch.order;
      AdditionsAvoid(ch.order, ch.items, name, i);
      RunAvoids(Flat(UserStage.Additions(ch.order, ch.items), 0), 0, a.w, Link(name, i));
    }
  }
}
