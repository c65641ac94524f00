/** The unbounded loop shared by projects and bookbags: work for the users' ids, then look for the first missing name.
    */
module ScanLoop {
  import opened World
  import opened Steps
  import opened Scans
  import opened Plans
  import opened Progress

  /** blocks: the work for ids 1, 2, ...; start: the first id that is only looked for. Blocks may be missing below
      start, for a stage that has nothing to do there. */
  datatype Loop = Loop(blocks: seq<Plan>, start: nat, kind: Kind, ns: string, base: string)
  {
    ghost predicate Valid() {
      && start >= 1
      && (blocks == [] || |blocks| == start - 1)
      && forall b, i :: 0 <= b < |blocks| && 0 <= i < |blocks[b]| ==> Harmless(blocks[b][i])
    }

    /** A plain building step that makes none of the names looked for. */
    ghost predicate Harmless(s: Step) {
      && (s.EnsureStep? || s.SyncStep?)
      && forall j: nat :: start <= j ==> Makes(s) != Some(Numbered(kind, ns, base, j))
    }

    function Scan(): Step {
      ScanStep(kind, ns, base, start)
    }

    function Plan(): Plan {
      Flat(blocks, 0) + [Scan()]
    }

    /** What is still to be done when the loop counter is id. */
    function Rest(id: nat, w: World): Answer
      requires id >= 1
    {
      if id <= |blocks| then Run(Flat(blocks, id - 1) + [Scan()], 0, w)
      else Answer(ScanFrom(w, kind, ns, base, Max(id, start)), Done)
    }

    /** Rounds the loop can still make: ids to come, stored names ahead, and calls that will fail. */
    ghost function Budget(id: nat, w: World): nat {
      (if id < start then start - id else 0) + |Remaining(w.store, kind, ns, base, Max(id, start))| + Faulty(w.script)
    }

    lemma ScanAlone(w: World)
      ensures Run([Scan()], 0, w) == Answer(ScanFrom(w, kind, ns, base, start), Done)
    {
      var a := Do(Scan(), w);
      assert Run([Scan()], 1, a.w) == Answer(a.w, Done);
    }

    lemma InPlan(s: Step)
      ensures s in Plan() <==> s == Scan() || exists b :: b in blocks && s in b
    {
      InFlat(blocks, 0, s);
      var p := Plan();
      assert p[|p| - 1] == Scan();
      if s in p && s != Scan() {
        var j :| 0 <= j < |blocks| && s in blocks[j];
        assert blocks[j] in blocks;
      }
    }

    lemma RestStart(w: World)
      requires Valid()
      ensures Rest(1, w) == Run(Plan(), 0, w)
    {
      ScanAlone(w);
      if blocks == [] {
        assert Plan() == [Scan()];
      }
    }

    lemma RestBlock(id: nat, w: World)
      requires 1 <= id <= |blocks| == start - 1
      ensures var a := Run(blocks[id - 1], 0, w);
              Rest(id, w) == if a.r == Done then Rest(id + 1, a.w) else a
    {
      hide Do, Run, ScanFrom;
      RunBlock(blocks, [Scan()], id - 1, w);
      if id == |blocks| {
        assert Flat(blocks, id) + [Scan()] == [Scan()];
        ScanAlone(Run(blocks[id - 1], 0, w).w);
      }
    }

    /** One round that works through a block. */
    lemma AddRound(id: nat, w: World)
      requires Valid() && 1 <= id <= |blocks|
      ensures var a := Run(blocks[id - 1], 0, w);
              && Rest(id, w) == (if a.r == Done then Rest(id + 1, a.w) else a)
              && Budget(id + 1, a.w) < Budget(id, w)
    {
      RestBlock(id, w);
      BlockAhead(id, w);
    }

    /** Working through a block never touches a name the scan will ask for. */
    lemma BlockAhead(id: nat, w: World)
      requires Valid() && 1 <= id <= |blocks|
      ensures var v := Run(blocks[id - 1], 0, w).w;
              Remaining(v.store, kind, ns, base, start) == Remaining(w.store, kind, ns, base, start)
              && Faulty(v.script) <= Faulty(w.script)
    {
      var p := blocks[id - 1];
      assert forall i :: 0 <= i < |p| ==> Harmless(p[i]);
      RunTame(p, 0, w);
      RunKeeps(p, 0, w);
    }

    /** One round below start without a block. */
    lemma SkipRound(id: nat, w: World)
      requires Valid() && 1 <= id < start && blocks == []
      ensures Rest(id, w) == Rest(id + 1, w) && Budget(id + 1, w) < Budget(id, w)
    {
    }

    /** One round of the scan. */
    lemma ScanRound(id: nat, w: World)
      requires Valid() && start <= id
      ensures var g := DoGet(w, Numbered(kind, ns, base, id));
              if g.out == NotFound then Rest(id, w) == Answer(g.w, Done)
              else Rest(id, w) == Rest(id + 1, g.w) && Budget(id + 1, g.w) < Budget(id, w)
    {
      GetFacts(w, Numbered(kind, ns, base, id));
      RemainingNext(w.store, kind, ns, base, id);
    }
  }
}
