/** The readiness gate against the replicas themselves: what each look sees, and exactly when the gate opens. */
module Replicas {
  import opened World
  import opened Steps
  import opened Gates

  /* ---------- The replica counts, as others change them ---------- */

  /** The counts after a stretch of other people's steps. */
  ghost function Scaled(ready: map<Key, nat>, es: seq<Env>): map<Key, nat>
    decreases |es|
  {
    if es == [] then ready
    else Scaled(if es[0].Replicas? then ready[es[0].dep := es[0].ready] else ready, es[1..])
  }

  /** The counts when the first k coming calls have been served; nothing changes after the script has ended. */
  ghost function ReadyAt(ready: map<Key, nat>, script: seq<Tick>, k: nat): map<Key, nat>
    decreases k
  {
    if k == 0 || script == [] then ready else ReadyAt(Scaled(ready, script[0].env), script[1..], k - 1)
  }

  /** The k-th coming call, counted from 0, does not fail. */
  ghost predicate Served(script: seq<Tick>, k: nat) {
    k < |script| ==> script[k].fault == Clean
  }

  /** The k-th coming call, if it asks for the deployment, finds it. */
  ghost predicate Answered(w: World, dep: Key, k: nat) {
    Served(w.script, k) && dep in ReadyAt(w.ready, w.script, k + 1)
  }

  /** The ready replicas that call reports, and none when it fails or finds nothing. */
  ghost function Seen(w: World, dep: Key, k: nat): nat {
    if Answered(w, dep, k) then ReadyAt(w.ready, w.script, k + 1)[dep] else 0
  }

  lemma {:induction false} EnvScaled(w: World, es: seq<Env>)
    ensures ApplyAll(w, es).ready == Scaled(w.ready, es)
    decreases |es|
  {
    if es != [] {
      EnvScaled(ApplyEnv(w, es[0]), es[1..]);
    }
  }

  /** One call served: the script is one tick shorter and the counts are those of that tick. */
  ghost predicate OneCall(w: World, v: World) {
    && v.ready == ReadyAt(w.ready, w.script, 1)
    && v.script == (if w.script == [] then [] else w.script[1..])
  }

  lemma PopOne(w: World)
    ensures OneCall(w, Pop(w))
  {
    if w.script != [] {
      var v := w.(script := w.script[1..]);
      EnvScaled(v, w.script[0].env);
      EnvAll(v, w.script[0].env);
      assert ReadyAt(Scaled(w.ready, w.script[0].env), w.script[1..], 0) == Scaled(w.ready, w.script[0].env);
    }
  }

  lemma WatchOne(w: World, dep: Key)
    ensures OneCall(w, DoWatch(w, dep).w) && (DoWatch(w, dep).out == Ok <==> Served(w.script, 0))
  {
    PopOne(w);
    hide Pop, ReadyAt;
  }

  lemma LookOne(w: World, dep: Key)
    ensures var g := DoGetDeployment(w, dep);
            && OneCall(w, g.w)
            && (g.out == Ok <==> Answered(w, dep, 0))
            && (g.out == Ok ==> dep in g.w.ready && g.w.ready[dep] == Seen(w, dep, 0))
  {
    PopOne(w);
    hide Pop, ReadyAt;
  }

  lemma Shifted(w: World, v: World, dep: Key, k: nat)
    requires OneCall(w, v)
    ensures Answered(v, dep, k) <==> Answered(w, dep, k + 1)
    ensures Seen(v, dep, k) == Seen(w, dep, k + 1)
  {
  }

  /* ---------- Exactly when the gate opens ---------- */

  /** From the i-th event on, with the coming call a look at the deployment: looks 0 .. k all find it, and the k-th
      reports one ready replica, or the event behind it does. */
  ghost predicate OpensAt(w: World, dep: Key, events: seq<Event>, i: nat, k: nat) {
    && i + k <= |events|
    && (forall j: nat :: j <= k ==> Answered(w, dep, j))
    && (Seen(w, dep, k) == 1 || (i + k < |events| && events[i + k] == Modified(1)))
  }

  ghost predicate Opens(w: World, dep: Key, events: seq<Event>, i: nat) {
    exists k: nat :: OpensAt(w, dep, events, i, k)
  }

  lemma OpensShift(w: World, v: World, dep: Key, events: seq<Event>, i: nat, k: nat)
    requires OneCall(w, v) && Answered(w, dep, 0)
    ensures OpensAt(w, dep, events, i, k + 1) <==> OpensAt(v, dep, events, i + 1, k)
  {
    hide Answered, Seen, OneCall;
    forall j: nat ensures Answered(v, dep, j) == Answered(w, dep, j + 1) { Shifted(w, v, dep, j); }
    Shifted(w, v, dep, k);
    if OpensAt(v, dep, events, i + 1, k) {
      forall j: nat | j <= k + 1 ensures Answered(w, dep, j) {
        if j > 0 { assert Answered(v, dep, j - 1); }
      }
    }
  }

  /** A first look that finds the deployment, but not one ready replica, leaves the question to the rest. */
  lemma OpensLater(w: World, v: World, dep: Key, events: seq<Event>, i: nat)
    requires OneCall(w, v) && i < |events| && Answered(w, dep, 0) && !OpensAt(w, dep, events, i, 0)
    ensures Opens(w, dep, events, i) <==> Opens(v, dep, events, i + 1)
  {
    hide OpensAt, OneCall, Answered;
    var next := i + 1;
    if k: nat :| OpensAt(w, dep, events, i, k) {
      OpensShift(w, v, dep, events, i, k - 1);
    }
    if k: nat :| OpensAt(v, dep, events, next, k) {
      OpensShift(w, v, dep, events, i, k);
    }
  }

  lemma OpensFirst(w: World, dep: Key, events: seq<Event>, i: nat)
    requires i <= |events|
    ensures !Answered(w, dep, 0) ==> !Opens(w, dep, events, i)
    ensures OpensAt(w, dep, events, i, 0) ==> Opens(w, dep, events, i)
    ensures i == |events| ==> (Opens(w, dep, events, i) <==> OpensAt(w, dep, events, i, 0))
  {
    if k: nat :| OpensAt(w, dep, events, i, k) {
      assert 0 <= k;
    }
  }

  /** A note changes nothing about the coming calls. */
  lemma NoteShift(w: World, e: Entry, dep: Key, events: seq<Event>, i: nat)
    ensures Opens(Note(w, e), dep, events, i) <==> Opens(w, dep, events, i)
  {
    if k: nat :| OpensAt(w, dep, events, i, k) { NoteShiftAt(w, e, dep, events, i, k); }
    if k: nat :| OpensAt(Note(w, e), dep, events, i, k) { NoteShiftAt(w, e, dep, events, i, k); }
  }

  lemma NoteShiftAt(w: World, e: Entry, dep: Key, events: seq<Event>, i: nat, k: nat)
    ensures OpensAt(Note(w, e), dep, events, i, k) <==> OpensAt(w, dep, events, i, k)
  {
    var v := Note(w, e);
    forall j: nat ensures Answered(v, dep, j) == Answered(w, dep, j) {
    }
    assert Seen(v, dep, k) == Seen(w, dep, k);
    hide Answered, Seen;
  }

  lemma {:induction false} PollOpens(w: World, dep: Key, events: seq<Event>, i: nat)
    requires i <= |events|
    ensures Poll(w, dep, events, i).r == Done <==> Opens(w, dep, events, i)
    decreases |events| - i
  {
    hide Opens, DoGetDeployment, Answered, Seen, ReadyAt, OneCall;
    var g := DoGetDeployment(w, dep);
    var n := if g.out == Ok then ReadyCount(g.w, dep) else 0;
    var v := Note(g.w, Observed(dep, n));
    LookOne(w, dep);
    OpensFirst(w, dep, events, i);
    if g.out == Ok && n != 1 && i < |events| && events[i] != Modified(1) {
      OpensLater(w, g.w, dep, events, i);
      NoteShift(g.w, Observed(dep, n), dep, events, i + 1);
      if events[i].Modified? {
        NoteShift(v, Observed(dep, events[i].ready), dep, events, i + 1);
        PollOpens(Note(v, Observed(dep, events[i].ready)), dep, events, i + 1);
      } else {
        PollOpens(v, dep, events, i + 1);
      }
    }
  }

  /** Look k, that is the k-th call behind the watch: the looks up to it all find the deployment, and it reports one
      ready replica, or the event behind it does. */
  ghost predicate Shows(w: World, dep: Key, events: seq<Event>, k: nat) {
    && 1 <= k <= |events| + 1
    && (forall j: nat :: 1 <= j <= k ==> Answered(w, dep, j))
    && (Seen(w, dep, k) == 1 || (k <= |events| && events[k - 1] == Modified(1)))
  }

  lemma ShowsAt(w: World, v: World, dep: Key, events: seq<Event>, k: nat)
    requires OneCall(w, v)
    ensures OpensAt(v, dep, events, 0, k) <==> Shows(w, dep, events, k + 1)
  {
    hide Answered, Seen, OneCall;
    forall j: nat ensures Answered(v, dep, j) == Answered(w, dep, j + 1) { Shifted(w, v, dep, j); }
    Shifted(w, v, dep, k);
    if OpensAt(v, dep, events, 0, k) {
      forall j: nat | 1 <= j <= k + 1 ensures Answered(w, dep, j) { assert Answered(v, dep, j - 1); }
    }
  }

  /** The gate opens, for every script and event stream, if and only if the watch can be opened and some look, behind
      looks that all find the deployment, shows one ready replica. */
  lemma GateOpens(w: World, dep: Key)
    ensures Await(w, dep).r == Done <==> Served(w.script, 0) && exists k: nat :: Shows(w, dep, Next(w).events, k)
  {
    hide DoWatch, OpensAt, Shows, Poll, OneCall;
    var s, events := DoWatch(w, dep), Next(w).events;
    WatchOne(w, dep);
    PollOpens(s.w, dep, events, 0);
    if k: nat :| OpensAt(s.w, dep, events, 0, k) {
      ShowsAt(w, s.w, dep, events, k);
    }
    if k: nat :| Shows(w, dep, events, k) {
      assert k >= 1 by { ShowsPositive(w, dep, events, k); }
      ShowsAt(w, s.w, dep, events, k - 1);
    }
  }

  lemma ShowsPositive(w: World, dep: Key, events: seq<Event>, k: nat)
    requires Shows(w, dep, events, k)
    ensures k >= 1
  {
  }

  /** Nobody else acts and nothing fails. */
  ghost predicate Quiet(script: seq<Tick>) {
    forall i :: 0 <= i < |script| ==> script[i].env == [] && script[i].fault == Clean
  }

  lemma {:induction false} QuietReady(ready: map<Key, nat>, script: seq<Tick>, k: nat)
    requires Quiet(script)
    ensures ReadyAt(ready, script, k) == ready
    decreases k
  {
    if k > 0 && script != [] {
      assert Scaled(ready, script[0].env) == ready;
      QuietReady(ready, script[1..], k - 1);
    }
  }

  lemma QuietLook(w: World, dep: Key, k: nat)
    requires Quiet(w.script)
    ensures Answered(w, dep, k) == (dep in w.ready) && Seen(w, dep, k) == if dep in w.ready then w.ready[dep] else 0
  {
    QuietReady(w.ready, w.script, k + 1);
    hide ReadyAt;
  }

  lemma QuietShows(w: World, dep: Key, events: seq<Event>, k: nat)
    requires Quiet(w.script)
    ensures Shows(w, dep, events, k) <==>
            1 <= k <= |events| + 1 && dep in w.ready
            && (w.ready[dep] == 1 || (k <= |events| && events[k - 1] == Modified(1)))
  {
    hide Answered, Seen;
    forall j: nat ensures Answered(w, dep, j) == (dep in w.ready) { QuietLook(w, dep, j); }
    QuietLook(w, dep, k);
    assert 1 <= k ==> (Answered(w, dep, 1) == (dep in w.ready));
  }

  /** With nobody else acting, the gate opens exactly when the stored count is one or the stream reports one. */
  lemma QuietGate(w: World, dep: Key)
    requires Quiet(w.script)
    ensures var events := Next(w).events;
            Await(w, dep).r == Done <==>
            dep in w.ready && (w.ready[dep] == 1 || exists i :: 0 <= i < |events| && events[i] == Modified(1))
  {
    hide Shows, Await;
    var events := Next(w).events;
    GateOpens(w, dep);
    QuietShows(w, dep, events, 1);
    if i :| 0 <= i < |events| && events[i] == Modified(1) {
      QuietShows(w, dep, events, i + 1);
    }
    if k: nat :| Shows(w, dep, events, k) {
      QuietShows(w, dep, events, k);
    }
  }

  /* ---------- Every observation is true ---------- */

  /** How many calls a stretch of history records. */
  ghost function Calls(entries: seq<Entry>): nat {
    if entries == [] then 0 else Calls(entries[..|entries| - 1]) + if entries[|entries| - 1].Called? then 1 else 0
  }

  lemma {:induction false} CallsAdd(a: seq<Entry>, b: seq<Entry>)
    ensures Calls(a + b) == Calls(a) + Calls(b)
    decreases |b|
  {
    if b == [] {
      assert a + b == a;
    } else {
      var front := b[..|b| - 1];
      CallsAdd(a, front);
      assert (a + b)[..|a + b| - 1] == a + front;
    }
  }

  lemma {:induction false} NoCalls(b: seq<Entry>)
    requires forall i :: 0 <= i < |b| ==> !b[i].Called?
    ensures Calls(b) == 0
  {
    if b != [] {
      NoCalls(b[..|b| - 1]);
    }
  }

  /** An observation in the history after w, made behind c calls, is of this deployment, and its number is what the last
      of those calls reported, or what an event of the stream did. */
  ghost predicate TrueAt(w: World, v: World, dep: Key, events: seq<Event>, x: nat)
    requires |w.trail| <= x < |v.trail|
  {
    v.trail[x].Observed? ==>
      && v.trail[x].dep == dep
      && var c := Calls(v.trail[|w.trail|..x]);
         (c >= 1 && v.trail[x].ready == Seen(w, dep, c - 1)) || Modified(v.trail[x].ready) in events
  }

  ghost predicate AllTrue(w: World, v: World, dep: Key, events: seq<Event>) {
    w.trail <= v.trail && forall x :: |w.trail| <= x < |v.trail| ==> TrueAt(w, v, dep, events, x)
  }

  /** The history of one call and what is noted right behind it. */
  lemma CallTrail(w: World, v: World, e: Entry) returns (refs: seq<Entry>)
    requires v.trail == Pop(w).trail + [e] && e.Called?
    ensures v.trail == w.trail + refs + [e] && forall i :: 0 <= i < |refs| ==> refs[i].Referred?
    ensures Calls(refs + [e]) == 1
  {
    PopFacts(w);
    refs := Pop(w).trail[|w.trail|..];
    hide Pop;
    NoCalls(refs);
    CallsAdd(refs, [e]);
    assert [e][..0] == [];
    assert Calls([e]) == 1;
  }

  lemma LookTrail(w: World, dep: Key) returns (refs: seq<Entry>, e: Entry)
    ensures var v := DoGetDeployment(w, dep).w;
            v.trail == w.trail + refs + [e] && Calls(refs + [e]) == 1
            && e.Called? && forall i :: 0 <= i < |refs| ==> refs[i].Referred?
  {
    var v := DoGetDeployment(w, dep).w;
    e := v.trail[|v.trail| - 1];
    refs := CallTrail(w, v, e);
  }

  lemma WatchTrail(w: World, dep: Key) returns (refs: seq<Entry>, e: Entry)
    ensures var v := DoWatch(w, dep).w;
            v.trail == w.trail + refs + [e] && Calls(refs + [e]) == 1
            && e.Called? && forall i :: 0 <= i < |refs| ==> refs[i].Referred?
  {
    var v := DoWatch(w, dep).w;
    e := v.trail[|v.trail| - 1];
    refs := CallTrail(w, v, e);
  }

  lemma Slices(a: seq<Entry>, b: seq<Entry>, z: seq<Entry>, x: nat)
    requires a <= b <= z && |b| <= x <= |z|
    ensures z[|a|..x] == b[|a|..] + z[|b|..x]
  {
  }

  /** One entry, seen from before a stretch with a single call. */
  lemma TrueBefore(w: World, v: World, z: World, dep: Key, events: seq<Event>, x: nat)
    requires w.trail <= v.trail <= z.trail && |v.trail| <= x < |z.trail|
    requires OneCall(w, v) && Calls(v.trail[|w.trail|..]) == 1 && TrueAt(v, z, dep, events, x)
    ensures TrueAt(w, z, dep, events, x)
  {
    hide Seen, OneCall;
    var rest := z.trail[|v.trail|..x];
    Slices(w.trail, v.trail, z.trail, x);
    CallsAdd(v.trail[|w.trail|..], rest);
    var c := Calls(rest);
    if c >= 1 { Shifted(w, v, dep, c - 1); }
  }

  /** What is true of the history behind a stretch with a single call, and of that stretch, is true of both. */
  lemma TrueThen(w: World, v: World, z: World, dep: Key, events: seq<Event>)
    requires OneCall(w, v) && w.trail <= v.trail && Calls(v.trail[|w.trail|..]) == 1
    requires AllTrue(w, v, dep, events) && AllTrue(v, z, dep, events)
    ensures AllTrue(w, z, dep, events)
  {
    hide TrueAt, OneCall, Calls;
    forall x | |w.trail| <= x < |z.trail| ensures TrueAt(w, z, dep, events, x) {
      if x < |v.trail| {
        TrueKept(w, v, z, dep, events, x);
      } else {
        TrueBefore(w, v, z, dep, events, x);
      }
    }
  }

  lemma TrueKept(w: World, v: World, z: World, dep: Key, events: seq<Event>, x: nat)
    requires |w.trail| <= x < |v.trail| && v.trail <= z.trail && TrueAt(w, v, dep, events, x)
    ensures TrueAt(w, z, dep, events, x)
  {
    assert z.trail[x] == v.trail[x] && z.trail[|w.trail|..x] == v.trail[|w.trail|..x];
  }

  /** Noting something true right behind a stretch of history keeps it true. */
  lemma TrueNote(w: World, v: World, dep: Key, events: seq<Event>, n: nat)
    requires AllTrue(w, v, dep, events)
    requires var c := Calls(v.trail[|w.trail|..]); (c >= 1 && n == Seen(w, dep, c - 1)) || Modified(n) in events
    ensures AllTrue(w, Note(v, Observed(dep, n)), dep, events)
  {
    hide Seen;
    var u := Note(v, Observed(dep, n));
    forall x | |w.trail| <= x < |u.trail| ensures TrueAt(w, u, dep, events, x) {
      if x < |v.trail| {
        assert TrueAt(w, v, dep, events, x);
        assert u.trail[|w.trail|..x] == v.trail[|w.trail|..x];
      } else {
        assert u.trail[|w.trail|..x] == v.trail[|w.trail|..];
      }
    }
  }

  /** A call alone notes nothing. */
  lemma CallTrue(w: World, v: World, dep: Key, events: seq<Event>, refs: seq<Entry>, e: Entry)
    requires v.trail == w.trail + refs + [e] && e.Called? && forall i :: 0 <= i < |refs| ==> refs[i].Referred?
    ensures AllTrue(w, v, dep, events) && v.trail[|w.trail|..] == refs + [e]
  {
    forall x | |w.trail| <= x < |v.trail| ensures !v.trail[x].Observed? {
      assert v.trail[x] == e || v.trail[x] == refs[x - |w.trail|];
    }
  }

  lemma NotesAdd(w: World, v: World, e: Entry)
    requires w.trail <= v.trail && !e.Called?
    ensures Calls(Note(v, e).trail[|w.trail|..]) == Calls(v.trail[|w.trail|..])
  {
    assert Note(v, e).trail[|w.trail|..] == v.trail[|w.trail|..] + [e];
    NoCalls([e]);
    CallsAdd(v.trail[|w.trail|..], [e]);
  }

  /** One look and the note behind it. */
  lemma LookTrue(w: World, dep: Key, events: seq<Event>)
    ensures var g := DoGetDeployment(w, dep);
            var v := Note(g.w, Observed(dep, if g.out == Ok then ReadyCount(g.w, dep) else 0));
            AllTrue(w, v, dep, events) && OneCall(w, v) && w.trail <= v.trail && Calls(v.trail[|w.trail|..]) == 1
  {
    hide DoGetDeployment, Seen, Calls;
    var g := DoGetDeployment(w, dep);
    var n := if g.out == Ok then ReadyCount(g.w, dep) else 0;
    LookOne(w, dep);
    var refs, e := LookTrail(w, dep);
    CallTrue(w, g.w, dep, events, refs, e);
    SeenZero(w, dep);
    TrueNote(w, g.w, dep, events, n);
    NotesAdd(w, g.w, Observed(dep, n));
  }

  lemma SeenZero(w: World, dep: Key)
    ensures !Answered(w, dep, 0) ==> Seen(w, dep, 0) == 0
  {
  }

  lemma {:induction false} PollTrue(w: World, dep: Key, events: seq<Event>, i: nat)
    requires i <= |events|
    ensures AllTrue(w, Poll(w, dep, events, i).w, dep, events)
    decreases |events| - i
  {
    hide DoGetDeployment, AllTrue, ReadyCount, Calls, ReadyAt;
    var g := DoGetDeployment(w, dep);
    var n := if g.out == Ok then ReadyCount(g.w, dep) else 0;
    var v := Note(g.w, Observed(dep, n));
    LookTrue(w, dep, events);
    if n != 1 && i < |events| && g.out == Ok {
      if events[i].Modified? {
        var u := Note(v, Observed(dep, events[i].ready));
        assert Modified(events[i].ready) in events;
        TrueNote(w, v, dep, events, events[i].ready);
        NotesAdd(w, v, Observed(dep, events[i].ready));
        if events[i].ready != 1 {
          PollTrue(u, dep, events, i + 1);
          TrueThen(w, u, Poll(u, dep, events, i + 1).w, dep, events);
        }
      } else {
        PollTrue(v, dep, events, i + 1);
        TrueThen(w, v, Poll(v, dep, events, i + 1).w, dep, events);
      }
    }
  }

  /** Every observation the call notes is of that deployment, and its number is the count stored at the Get right before
      it (none if that Get failed or found nothing), or the count of a modification in the stream. */
  lemma ObservationsTrue(w: World, dep: Key)
    ensures AllTrue(w, Await(w, dep).w, dep, Next(w).events)
  {
    hide DoWatch, Poll, OneCall, Calls, TrueAt;
    var s, events := DoWatch(w, dep), Next(w).events;
    WatchOne(w, dep);
    var refs, e := WatchTrail(w, dep);
    CallTrue(w, s.w, dep, events, refs, e);
    if s.out == Ok {
      PollTrue(s.w, dep, events, 0);
      TrueThen(w, s.w, Await(w, dep).w, dep, events);
    }
  }
}
