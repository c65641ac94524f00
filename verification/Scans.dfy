/** Loops that count upward through numbered names until one is missing. */
module Scans {
  import opened World
  import opened Steps
  import opened Strings = Text

  function Numbered(kind: Kind, ns: string, base: string, id: nat): Key {
    Key(kind, ns, base + Dec(id))
  }

  /** The stored objects of that base name numbered id or higher. */
  ghost function Remaining(store: map<Key, Obj>, kind: Kind, ns: string, base: string, id: nat): set<Key> {
    set k | k in store && exists j: nat :: id <= j && k == Numbered(kind, ns, base, j)
  }

  lemma RemainingNext(store: map<Key, Obj>, kind: Kind, ns: string, base: string, id: nat)
    ensures var k := Numbered(kind, ns, base, id);
            Remaining(store, kind, ns, base, id + 1) == Remaining(store, kind, ns, base, id) - {k}
    ensures Numbered(kind, ns, base, id) in store <==>
            Numbered(kind, ns, base, id) in Remaining(store, kind, ns, base, id)
    ensures |Remaining(store, kind, ns, base, id + 1)| ==
            |Remaining(store, kind, ns, base, id)| - if Numbered(kind, ns, base, id) in store then 1 else 0
  {
    var k := Numbered(kind, ns, base, id);
    var r, s := Remaining(store, kind, ns, base, id), Remaining(store, kind, ns, base, id + 1);
    forall j: nat | j > id ensures Numbered(kind, ns, base, j) != k {
      NumberedInjective(base, id, j);
    }
    forall x ensures x in s <==> x in r && x != k {
      if x in r && x != k {
        var j: nat :| id <= j && x == Numbered(kind, ns, base, j);
        assert id + 1 <= j;
      }
    }
    assert s == r - {k};
  }

  /* ---------- The scan for the first missing name ---------- */

  function ScanFrom(w: World, kind: Kind, ns: string, base: string, id: nat): World
    decreases |Remaining(w.store, kind, ns, base, id)| + Faulty(w.script)
  {
    var g := DoGet(w, Numbered(kind, ns, base, id));
    GetFacts(w, Numbered(kind, ns, base, id));
    RemainingNext(w.store, kind, ns, base, id);
    if g.out == NotFound then g.w else ScanFrom(g.w, kind, ns, base, id + 1)
  }

  /** How many names the scan asks for. */
  function ScanRounds(w: World, kind: Kind, ns: string, base: string, id: nat): nat
    decreases |Remaining(w.store, kind, ns, base, id)| + Faulty(w.script)
  {
    var g := DoGet(w, Numbered(kind, ns, base, id));
    GetFacts(w, Numbered(kind, ns, base, id));
    RemainingNext(w.store, kind, ns, base, id);
    1 + if g.out == NotFound then 0 else ScanRounds(g.w, kind, ns, base, id + 1)
  }

  /** The scan changes nothing and asks for at most the stored names, the failing calls, and one more. */
  lemma {:induction false} ScanBound(w: World, kind: Kind, ns: string, base: string, id: nat)
    ensures var v := ScanFrom(w, kind, ns, base, id);
            Tame(w, v) && v.store == w.store
    ensures ScanRounds(w, kind, ns, base, id) <= |Remaining(w.store, kind, ns, base, id)| + Faulty(w.script) + 1
    decreases |Remaining(w.store, kind, ns, base, id)| + Faulty(w.script)
  {
    var g := DoGet(w, Numbered(kind, ns, base, id));
    GetFacts(w, Numbered(kind, ns, base, id));
    GetTame(w, Numbered(kind, ns, base, id));
    RemainingNext(w.store, kind, ns, base, id);
    if g.out != NotFound {
      ScanBound(g.w, kind, ns, base, id + 1);
      TameTrans(w, g.w, ScanFrom(w, kind, ns, base, id));
    }
  }

  /** The call that asks for the i-th name will find it, or fail. */
  ghost predicate GoesOn(w: World, kind: Kind, ns: string, base: string, id: nat, i: nat)
    requires id <= i
  {
    Numbered(kind, ns, base, i) in w.store || (i - id < |w.script| && w.script[i - id].fault != Clean)
  }

  lemma GoesOnNext(w: World, kind: Kind, ns: string, base: string, id: nat)
    ensures var g := DoGet(w, Numbered(kind, ns, base, id));
            && (g.out == NotFound <==> !GoesOn(w, kind, ns, base, id, id))
            && forall i: nat :: id < i ==>
                 (GoesOn(g.w, kind, ns, base, id + 1, i) <==> GoesOn(w, kind, ns, base, id, i))
  {
    GetTick(w, Numbered(kind, ns, base, id));
    GetFacts(w, Numbered(kind, ns, base, id));
    hide DoGet;
  }

  lemma GetLast(w: World, k: Key)
    requires DoGet(w, k).out == NotFound
    ensures var v := DoGet(w, k).w;
            v.trail != [] && v.trail[|v.trail| - 1] == Called(Verb.Get, k, NotFound, Armed(v))
  {
  }

  ghost function ScanAhead(w: World, kind: Kind, ns: string, base: string, id: nat): nat {
    |Remaining(w.store, kind, ns, base, id)| + Faulty(w.script)
  }

  /** One round of the scan. */
  lemma ScanNext(w: World, kind: Kind, ns: string, base: string, id: nat)
    ensures var g := DoGet(w, Numbered(kind, ns, base, id));
            if g.out == NotFound then ScanFrom(w, kind, ns, base, id) == g.w && ScanRounds(w, kind, ns, base, id) == 1
            else ScanFrom(w, kind, ns, base, id) == ScanFrom(g.w, kind, ns, base, id + 1)
                 && ScanRounds(w, kind, ns, base, id) == 1 + ScanRounds(g.w, kind, ns, base, id + 1)
                 && ScanAhead(g.w, kind, ns, base, id + 1) < ScanAhead(w, kind, ns, base, id)
  {
    GetFacts(w, Numbered(kind, ns, base, id));
    RemainingNext(w.store, kind, ns, base, id);
  }

  /** The scan asks for one name after the other, up to the first that a call that does not fail reports missing. */
  lemma {:induction false} ScanStops(w: World, kind: Kind, ns: string, base: string, id: nat) returns (j: nat)
    ensures id <= j && !GoesOn(w, kind, ns, base, id, j) && ScanRounds(w, kind, ns, base, id) == j - id + 1
    ensures forall i :: id <= i < j ==> GoesOn(w, kind, ns, base, id, i)
    ensures var v := ScanFrom(w, kind, ns, base, id);
            v.trail != [] && v.trail[|v.trail| - 1] == Called(Verb.Get, Numbered(kind, ns, base, j), NotFound, Armed(v))
    decreases ScanAhead(w, kind, ns, base, id)
  {
    hide DoGet, GoesOn, ScanFrom, ScanRounds, ScanAhead;
    ScanNext(w, kind, ns, base, id);
    GoesOnNext(w, kind, ns, base, id);
    var g := DoGet(w, Numbered(kind, ns, base, id));
    if g.out == NotFound {
      j := id;
      GetLast(w, Numbered(kind, ns, base, id));
    } else {
      j := ScanStops(g.w, kind, ns, base, id + 1);
    }
  }

  /* ---------- Removing numbered projects ---------- */

  function RemoveEach(w: World, keys: seq<Key>, i: nat): Answer
    requires i <= |keys|
    decreases |keys| - i
  {
    if i == |keys| then Answer(w, Done)
    else
      var a := RemoveKey(w, keys[i]);
      if a.r != Done then a else RemoveEach(a.w, keys, i + 1)
  }

  /** A project's objects in the order the operator removes them. */
  function ProjectKeys(staging: string, id: nat): seq<Key> {
    var project, user := staging + Dec(id), "user" + Dec(id);
    [Key(RoleBinding, project, user + "-argocd"), Key(RoleBinding, project, user + "-default"),
     Key(RoleBinding, project, user + "-project"), Key(Namespace, "", project)]
  }

  function KeySet(keys: seq<Key>): set<Key> {
    set k | k in keys
  }

  lemma {:induction false} RemoveEachTame(w: World, keys: seq<Key>, i: nat)
    requires i <= |keys|
    ensures Tame(w, RemoveEach(w, keys, i).w)
    decreases |keys| - i
  {
    if i < |keys| {
      var d := DoDelete(w, keys[i]);
      DeleteTame(w, keys[i]);
      if d.out == Ok {
        RemoveEachTame(d.w, keys, i + 1);
        TameTrans(w, d.w, RemoveEach(w, keys, i).w);
      }
    }
  }

  lemma TakeOne(before: map<Key, Obj>, after: map<Key, Obj>, keys: seq<Key>, i: nat, n: nat)
    requires i < n <= |keys| && after == before - {keys[i]} - KeySet(keys[i + 1..n])
    ensures after == before - KeySet(keys[i..n])
  {
    assert keys[i..n] == [keys[i]] + keys[i + 1..n];
    assert KeySet(keys[i..n]) == {keys[i]} + KeySet(keys[i + 1..n]);
  }

  /** A removal in order stops with exactly a prefix of the keys gone. */
  lemma {:induction false} RemoveEachPrefix(w: World, keys: seq<Key>, i: nat) returns (n: nat)
    requires i <= |keys|
    ensures i <= n <= |keys| && RemoveEach(w, keys, i).w.store == w.store - KeySet(keys[i..n])
    ensures RemoveEach(w, keys, i).r == Done ==> n == |keys|
    decreases |keys| - i
  {
    n := i;
    assert KeySet(keys[i..i]) == {};
    if i < |keys| {
      var d := DoDelete(w, keys[i]);
      DeleteFacts(w, keys[i]);
      if d.out == Ok {
        n := RemoveEachPrefix(d.w, keys, i + 1);
        TakeOne(w.store, RemoveEach(w, keys, i).w.store, keys, i, n);
      } else if d.w.store != w.store {
        n := i + 1;
        assert KeySet(keys[i + 1..n]) == {};
        TakeOne(w.store, d.w.store, keys, i, n);
      }
    }
  }

  lemma {:induction false} RemoveEachDone(w: World, keys: seq<Key>, i: nat)
    requires i <= |keys|
    ensures var a := RemoveEach(w, keys, i);
            (a.r == Done || a.r == Failed) && (a.r == Done ==> forall j :: i <= j < |keys| ==> keys[j] in w.store)
    decreases |keys| - i
  {
    if i < |keys| {
      var d := DoDelete(w, keys[i]);
      DeleteFacts(w, keys[i]);
      if d.out == Ok {
        RemoveEachDone(d.w, keys, i + 1);
      }
    }
  }

  /** The loop of deleteProject. Below userId, or when projects are disabled, it scans; from userId on it removes.
      Hung stands for a loop that goes on forever: with an empty staging name the removing branch does nothing and
      never leaves the loop. */
  function DeleteFrom(w: World, staging: string, userId: nat, enabled: bool, id: nat): Answer
    decreases |Remaining(w.store, Namespace, "", staging, id)| + Faulty(w.script)
  {
    RemainingNext(w.store, Namespace, "", staging, id);
    if id >= userId && enabled then
      if staging == "" then Answer(w, Hung)
      else
        var a := RemoveEach(w, ProjectKeys(staging, id), 0);
        DeleteShrinks(w, staging, id);
        if a.r != Done then a else DeleteFrom(a.w, staging, userId, enabled, id + 1)
    else
      var g := DoGet(w, Numbered(Namespace, "", staging, id));
      GetFacts(w, Numbered(Namespace, "", staging, id));
      if g.out == NotFound then Answer(g.w, Done) else DeleteFrom(g.w, staging, userId, enabled, id + 1)
  }

  lemma DeleteShrinks(w: World, staging: string, id: nat)
    ensures var a := RemoveEach(w, ProjectKeys(staging, id), 0);
            Faulty(a.w.script) <= Faulty(w.script) &&
            (a.r == Done ==> |Remaining(a.w.store, Namespace, "", staging, id + 1)|
                             < |Remaining(w.store, Namespace, "", staging, id)|)
  {
    var keys := ProjectKeys(staging, id);
    var a := RemoveEach(w, keys, 0);
    var n := RemoveEachPrefix(w, keys, 0);
    RemoveEachTame(w, keys, 0);
    RemoveEachDone(w, keys, 0);
    if a.r == Done {
      RemainingNext(w.store, Namespace, "", staging, id);
      assert keys[3] == Numbered(Namespace, "", staging, id) && keys[3] in w.store;
      var r, s := Remaining(a.w.store, Namespace, "", staging, id + 1),
          Remaining(w.store, Namespace, "", staging, id + 1);
      assert r <= s;
      SubsetSize(r, s);
    }
  }

  lemma {:induction false} SubsetSize<T>(a: set<T>, b: set<T>)
    requires a <= b
    ensures |a| <= |b|
  {
    assert b == a + (b - a);
  }

  /** The keys of the projects numbered from lo up to, but not including, hi. */
  ghost function ProjectRange(staging: string, lo: nat, hi: nat): set<Key> {
    set j: nat, k | lo <= j < hi && k in ProjectKeys(staging, j) :: k
  }

  lemma {:induction false} ProjectsTame(w: World, staging: string, userId: nat, enabled: bool, id: nat)
    ensures Tame(w, DeleteFrom(w, staging, userId, enabled, id).w)
    decreases |Remaining(w.store, Namespace, "", staging, id)| + Faulty(w.script)
  {
    RemainingNext(w.store, Namespace, "", staging, id);
    var all := DeleteFrom(w, staging, userId, enabled, id);
    if id >= userId && enabled {
      var a := RemoveEach(w, ProjectKeys(staging, id), 0);
      DeleteShrinks(w, staging, id);
      RemoveEachTame(w, ProjectKeys(staging, id), 0);
      if staging != "" && a.r == Done {
        ProjectsTame(a.w, staging, userId, enabled, id + 1);
        TameTrans(w, a.w, all.w);
      }
    } else {
      var g := DoGet(w, Numbered(Namespace, "", staging, id));
      GetFacts(w, Numbered(Namespace, "", staging, id));
      GetTame(w, Numbered(Namespace, "", staging, id));
      if g.out != NotFound {
        ProjectsTame(g.w, staging, userId, enabled, id + 1);
        TameTrans(w, g.w, all.w);
      }
    }
  }

  ghost predicate Removed(before: map<Key, Obj>, after: map<Key, Obj>, staging: string, lo: nat, m: nat, n: nat) {
    n <= 4 && after == before - ProjectRange(staging, lo, m) - KeySet(ProjectKeys(staging, m)[..n])
  }

  lemma RemovedNothing(store: map<Key, Obj>, staging: string, lo: nat)
    ensures Removed(store, store, staging, lo, lo, 0)
  {
    assert ProjectRange(staging, lo, lo) == {};
    assert KeySet(ProjectKeys(staging, lo)[..0]) == {};
  }

  lemma RemovedOne(before: map<Key, Obj>, mid: map<Key, Obj>, after: map<Key, Obj>, staging: string, id: nat, m: nat,
      n: nat)
    requires mid == before - KeySet(ProjectKeys(staging, id)) && m > id
    requires Removed(mid, after, staging, id + 1, m, n)
    ensures Removed(before, after, staging, id, m, n)
  {
    assert ProjectRange(staging, id, m) == KeySet(ProjectKeys(staging, id)) + ProjectRange(staging, id + 1, m);
  }

  /** One round of the loop. */
  lemma DeleteRound(w: World, staging: string, userId: nat, enabled: bool, id: nat)
    ensures DeleteFrom(w, staging, userId, enabled, id) ==
            if id >= userId && enabled then
              if staging == "" then Answer(w, Hung)
              else
                var a := RemoveEach(w, ProjectKeys(staging, id), 0);
                if a.r != Done then a else DeleteFrom(a.w, staging, userId, enabled, id + 1)
            else
              var g := DoGet(w, Numbered(Namespace, "", staging, id));
              if g.out == NotFound then Answer(g.w, Done) else DeleteFrom(g.w, staging, userId, enabled, id + 1)
  {
  }

  /** What deleteProject can have removed when it stops, under any faults: all of the projects userId .. m-1, the
      first n objects of project m, and nothing else. So removal ascends, no project below userId is touched, and a
      namespace goes only after its three role bindings. */
  lemma {:induction false} DeleteShape(w: World, staging: string, userId: nat, enabled: bool, id: nat)
    returns (m: nat, n: nat)
    ensures var lo := if id >= userId then id else userId;
            m >= lo && Removed(w.store, DeleteFrom(w, staging, userId, enabled, id).w.store, staging, lo, m, n)
    decreases Ahead(w, staging, id)
  {
    hide DeleteFrom, DoGet, RemoveEach, ProjectKeys, Removed, Ahead;
    DeleteRound(w, staging, userId, enabled, id);
    AheadDrops(w, staging, id);
    var lo := if id >= userId then id else userId;
    m, n := lo, 0;
    RemovedNothing(w.store, staging, lo);
    if !enabled {
      ScanOnly(w, staging, userId, id);
    } else if id >= userId {
      if staging != "" {
        var a := RemoveEach(w, ProjectKeys(staging, id), 0);
        var p := RemovedPart(w, staging, id);
        if a.r == Done {
          m, n := DeleteShape(a.w, staging, userId, enabled, id + 1);
          RemovedOne(w.store, a.w.store, DeleteFrom(w, staging, userId, enabled, id).w.store, staging, id, m, n);
        } else {
          n := p;
        }
      }
    } else {
      var g := DoGet(w, Numbered(Namespace, "", staging, id));
      GetFacts(w, Numbered(Namespace, "", staging, id));
      if g.out != NotFound {
        m, n := DeleteShape(g.w, staging, userId, enabled, id + 1);
      }
    }
  }

  lemma RemovedPart(w: World, staging: string, id: nat) returns (n: nat)
    ensures var a := RemoveEach(w, ProjectKeys(staging, id), 0);
            Removed(w.store, a.w.store, staging, id, id, n)
            && (a.r == Done ==> a.w.store == w.store - KeySet(ProjectKeys(staging, id)))
  {
    var keys := ProjectKeys(staging, id);
    n := RemoveEachPrefix(w, keys, 0);
    assert keys[0..n] == keys[..n] && keys[..4] == keys;
    assert ProjectRange(staging, id, id) == {};
  }

  /** With projects disabled the loop removes nothing. */
  lemma {:induction false} ScanOnly(w: World, staging: string, userId: nat, id: nat)
    ensures DeleteFrom(w, staging, userId, false, id).w.store == w.store
    decreases |Remaining(w.store, Namespace, "", staging, id)| + Faulty(w.script)
  {
    RemainingNext(w.store, Namespace, "", staging, id);
    var g := DoGet(w, Numbered(Namespace, "", staging, id));
    GetFacts(w, Numbered(Namespace, "", staging, id));
    if g.out != NotFound {
      ScanOnly(g.w, staging, userId, id + 1);
    }
  }

  /** The loop as written, cut off after a number of rounds. */
  function Rounds(w: World, staging: string, userId: nat, enabled: bool, id: nat, fuel: nat): Option<Answer>
    decreases fuel
  {
    if fuel == 0 then None
    else if id >= userId && enabled then
      if staging == "" then Rounds(w, staging, userId, enabled, id + 1, fuel - 1)
      else
        var a := RemoveEach(w, ProjectKeys(staging, id), 0);
        if a.r != Done then Some(a) else Rounds(a.w, staging, userId, enabled, id + 1, fuel - 1)
    else
      var g := DoGet(w, Numbered(Namespace, "", staging, id));
      if g.out == NotFound then Some(Answer(g.w, Done)) else Rounds(g.w, staging, userId, enabled, id + 1, fuel - 1)
  }

  /** Hung means that no number of rounds ends the loop. */
  lemma {:induction false} HungForever(w: World, staging: string, userId: nat, enabled: bool, id: nat, fuel: nat)
    requires DeleteFrom(w, staging, userId, enabled, id).r == Hung
    ensures Rounds(w, staging, userId, enabled, id, fuel).None?
    decreases fuel
  {
    if fuel > 0 {
      if id >= userId && enabled {
        var a := RemoveEach(w, ProjectKeys(staging, id), 0);
        RemoveEachDone(w, ProjectKeys(staging, id), 0);
        HungForever(if staging == "" then w else a.w, staging, userId, enabled, id + 1, fuel - 1);
      } else {
        HungForever(DoGet(w, Numbered(Namespace, "", staging, id)).w, staging, userId, enabled, id + 1, fuel - 1);
      }
    }
  }

  /** The stored names still ahead of the loop, and the calls that will still fail. */
  ghost function Ahead(w: World, staging: string, id: nat): nat {
    |Remaining(w.store, Namespace, "", staging, id)| + Faulty(w.script)
  }

  lemma AheadDrops(w: World, staging: string, id: nat)
    ensures var a := RemoveEach(w, ProjectKeys(staging, id), 0);
            a.r == Done ==> Ahead(a.w, staging, id + 1) < Ahead(w, staging, id)
    ensures var g := DoGet(w, Numbered(Namespace, "", staging, id));
            g.out != NotFound ==> Ahead(g.w, staging, id + 1) < Ahead(w, staging, id)
  {
    RemainingNext(w.store, Namespace, "", staging, id);
    DeleteShrinks(w, staging, id);
    GetFacts(w, Numbered(Namespace, "", staging, id));
  }

  /** Any other answer is the answer of the loop as written, within as many rounds as there are stored names and
      failing calls, and one more. */
  lemma {:induction false} EndsWithin(w: World, staging: string, userId: nat, enabled: bool, id: nat, fuel: nat)
    requires DeleteFrom(w, staging, userId, enabled, id).r != Hung
    requires fuel > Ahead(w, staging, id)
    ensures Rounds(w, staging, userId, enabled, id, fuel) == Some(DeleteFrom(w, staging, userId, enabled, id))
    decreases fuel
  {
    hide DeleteFrom, DoGet, RemoveEach, ProjectKeys, Ahead;
    DeleteRound(w, staging, userId, enabled, id);
    AheadDrops(w, staging, id);
    if id >= userId && enabled {
      var a := RemoveEach(w, ProjectKeys(staging, id), 0);
      if a.r == Done {
        EndsWithin(a.w, staging, userId, enabled, id + 1, fuel - 1);
      }
    } else {
      var g := DoGet(w, Numbered(Namespace, "", staging, id));
      if g.out != NotFound {
        EndsWithin(g.w, staging, userId, enabled, id + 1, fuel - 1);
      }
    }
  }

  /** The loop, now at id, will ask for name j with a call that does not fail, and the name is missing. */
  ghost predicate Misses(w: World, staging: string, id: nat, j: nat)
    requires id <= j
  {
    Numbered(Namespace, "", staging, j) !in w.store && (j - id < |w.script| ==> w.script[j - id].fault == Clean)
  }

  ghost predicate SomeMiss(w: World, staging: string, id: nat, userId: nat) {
    exists j: nat :: id <= j < userId && Misses(w, staging, id, j)
  }

  /** A Get that finds its name, or fails, leaves the question to the names behind it. */
  lemma MissLater(w: World, staging: string, id: nat, userId: nat)
    requires id < userId
    ensures var g := DoGet(w, Numbered(Namespace, "", staging, id));
            && (g.out == NotFound ==> SomeMiss(w, staging, id, userId))
            && (g.out != NotFound ==> (SomeMiss(w, staging, id, userId) <==> SomeMiss(g.w, staging, id + 1, userId)))
  {
    var g := DoGet(w, Numbered(Namespace, "", staging, id));
    GetTick(w, Numbered(Namespace, "", staging, id));
    GetFacts(w, Numbered(Namespace, "", staging, id));
    hide DoGet;
    assert g.out == NotFound <==> Misses(w, staging, id, id);
    assert forall j: nat | id < j :: Misses(g.w, staging, id + 1, j) <==> Misses(w, staging, id, j);
    if SomeMiss(w, staging, id, userId) && g.out != NotFound {
      var j: nat :| id <= j < userId && Misses(w, staging, id, j);
      assert Misses(g.w, staging, id + 1, j);
    }
    if SomeMiss(g.w, staging, id + 1, userId) {
      var j: nat :| id + 1 <= j < userId && Misses(g.w, staging, id + 1, j);
      assert Misses(w, staging, id, j);
    }
  }

  /** How deleteProject ends, for every store and every fault script. It ends well exactly when projects are disabled
      or one of the names below userId is found missing; otherwise, with projects enabled, it fails on the first name
      it cannot remove, or goes on forever when the staging name is empty. */
  lemma {:induction false} DeleteOutcome(w: World, staging: string, userId: nat, enabled: bool, id: nat)
    ensures DeleteFrom(w, staging, userId, enabled, id).r ==
            if !enabled || SomeMiss(w, staging, id, userId) then Done
            else if staging == "" then Hung
            else Failed
    decreases Ahead(w, staging, id)
  {
    hide DeleteFrom, DoGet, RemoveEach, ProjectKeys, Ahead, Misses;
    DeleteRound(w, staging, userId, enabled, id);
    AheadDrops(w, staging, id);
    if id >= userId && enabled {
      var a := RemoveEach(w, ProjectKeys(staging, id), 0);
      RemoveEachDone(w, ProjectKeys(staging, id), 0);
      if staging != "" && a.r == Done {
        DeleteOutcome(a.w, staging, userId, enabled, id + 1);
      }
    } else {
      var g := DoGet(w, Numbered(Namespace, "", staging, id));
      if id < userId { MissLater(w, staging, id, userId); }
      if g.out != NotFound {
        DeleteOutcome(g.w, staging, userId, enabled, id + 1);
      }
    }
  }

  /** Exactly when the loop never ends: projects enabled, no staging name, and every name below userId present or
      asked for by a call that fails. */
  lemma HungWhen(w: World, staging: string, userId: nat, enabled: bool, id: nat)
    ensures DeleteFrom(w, staging, userId, enabled, id).r == Hung <==>
            enabled && staging == ""
            && forall j: nat :: id <= j < userId ==>
                 Numbered(Namespace, "", staging, j) in w.store
                 || (j - id < |w.script| && w.script[j - id].fault != Clean)
  {
    DeleteOutcome(w, staging, userId, enabled, id);
    hide DeleteFrom;
    assert forall j: nat | id <= j < userId ::
        !Misses(w, staging, id, j) <==> Numbered(Namespace, "", staging, j) in w.store
                                        || (j - id < |w.script| && w.script[j - id].fault != Clean);
  }

  /** For instance: no staging name, two users, and a namespace called 1. */
  lemma HungExample()
    ensures var w := World(map[Key(Namespace, "", "1") := Bare], None, map[], map[], map[], [], []);
            DeleteFrom(w, "", 2, true, 1).r == Hung
  {
    var w := World(map[Key(Namespace, "", "1") := Bare], None, map[], map[], map[], [], []);
    assert Dec(1) == "1" && "" + "1" == "1";
    HungWhen(w, "", 2, true, 1);
    hide DeleteFrom;
  }
}
