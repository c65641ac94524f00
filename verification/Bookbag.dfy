/** The bookbag stage: eight objects per user, then a scan for deployments named differently. */
module BookbagStage {
  import opened World
  import opened Cluster
  import opened Steps
  import opened Scans
  import opened Plans
  import opened Calls
  import opened Progress
  import opened ScanLoop
  import opened Strings = Text

  const GUIDES := "workshop-guides"

  function Name(id: nat): string {
    "user" + Dec(id) + "-bookbag"
  }

  /* ---------- The environment of the terminal ---------- */

  function Quoted(s: string): string {
    "\"" + s + "\""
  }

  /** The fields of a JSON object of strings, and its closing brace. */
  function Entries(fields: seq<(string, string)>): string {
    if fields == [] then "\n}"
    else Quoted(fields[0].0) + ": " + Quoted(fields[0].1) + (if |fields| == 1 then "" else ",\n\t")
         + Entries(fields[1..])
  }

  /** What the terminal is told about the workshop and this user. */
  function Vars(spec: Spec, id: nat): seq<(string, string)> {
    [("OPENSHIFT_CONSOLE_URL", spec.consoleUrl), ("APPS_HOSTNAME_SUFFIX", spec.suffix), ("USER_ID", Dec(id)),
     ("OPENSHIFT_PASSWORD", spec.password), ("CHE_URL", "http://codeready-workspaces." + spec.suffix),
     ("GIT_URL", "https://gitea-server-gitea." + spec.suffix),
     ("JAEGER_URL", "https://jaeger-istio-system." + spec.suffix),
     ("KIALI_URL", "https://kiali-istio-system." + spec.suffix),
     ("KIBANA_URL", "https://kibana-openshift-logging." + spec.suffix),
     ("GITOPS_URL", "https://argocd-server-argocd." + spec.suffix),
     ("WORKSHOP_GIT_REPO", spec.gitUrl), ("WORKSHOP_GIT_REF", spec.gitRef)]
  }

  function VarsText(fields: seq<(string, string)>): string {
    "{\n\t" + Entries(fields)
  }

  /** The compared environment of the terminal container, item by item. */
  function Environment(spec: Spec, id: nat): Obj {
    Names(["APPLICATION_NAME=" + Name(id), "AUTH_USERNAME=user" + Dec(id), "AUTH_PASSWORD=" + spec.password,
           "OAUTH_SERVICE_ACCOUNT=bookbag", "DOWNLOAD_URL=", "WORKSHOP_FILE=", "CONSOLE_URL=http://0.0.0.0:10083",
           "OC_VERSION=", "ODO_VERSION=", "KUBECTL_VERSION=", "WORKSHOP_VARS=" + VarsText(Vars(spec, id))])
  }

  /** The text between the quotes, two by two. */
  function PairsIn(parts: seq<string>): seq<(string, string)> {
    if |parts| < 5 then [] else [(parts[1], parts[3])] + PairsIn(parts[4..])
  }

  function ReadVars(text: string): seq<(string, string)> {
    PairsIn(Split(text, '"'))
  }

  lemma SplitQuoted(head: string, k: string, rest: string)
    requires '"' !in head && '"' !in k
    ensures Split(head + Quoted(k) + rest, '"') == [head, k] + Split(rest, '"')
  {
    SplitHead(k, '"', rest);
    SplitHead(head, '"', k + ['"'] + rest);
    assert head + Quoted(k) + rest == head + ['"'] + (k + ['"'] + rest);
  }

  lemma SplitField(head: string, k: string, v: string, rest: string)
    requires '"' !in head && '"' !in k && '"' !in v
    ensures Split(head + Quoted(k) + ": " + Quoted(v) + rest, '"') == [head, k, ": ", v] + Split(rest, '"')
  {
    hide Quoted, Split;
    SplitQuoted(": ", v, rest);
    SplitQuoted(head, k, ": " + Quoted(v) + rest);
    assert head + Quoted(k) + ": " + Quoted(v) + rest == head + Quoted(k) + (": " + Quoted(v) + rest);
  }

  /** One field in front of the others. */
  lemma SplitEntry(head: string, fields: seq<(string, string)>, sep: string)
    requires '"' !in head && fields != [] && '"' !in fields[0].0 && '"' !in fields[0].1
    requires sep == if |fields| == 1 then "" else ",\n\t"
    ensures Split(head + Entries(fields), '"') ==
            [head, fields[0].0, ": ", fields[0].1] + Split(sep + Entries(fields[1..]), '"')
  {
    hide Split, Quoted;
    var rest := sep + Entries(fields[1..]);
    assert head + Entries(fields) == head + Quoted(fields[0].0) + ": " + Quoted(fields[0].1) + rest;
    SplitField(head, fields[0].0, fields[0].1, rest);
  }

  lemma {:induction false} EntriesReadBack(head: string, fields: seq<(string, string)>)
    requires '"' !in head && forall f :: f in fields ==> '"' !in f.0 && '"' !in f.1
    ensures PairsIn(Split(head + Entries(fields), '"')) == fields
    decreases |fields|
  {
    hide Split;
    if fields == [] {
      SplitFree(head + "\n}", '"');
    } else {
      hide Entries;
      var f, sep := fields[0], if |fields| == 1 then "" else ",\n\t";
      assert f in fields;
      SplitEntry(head, fields, sep);
      EntriesReadBack(sep, fields[1..]);
      var parts := Split(head + Entries(fields), '"');
      assert parts[4..] == Split(sep + Entries(fields[1..]), '"');
    }
  }

  ghost predicate QuoteFree(spec: Spec) {
    '"' !in spec.consoleUrl && '"' !in spec.suffix && '"' !in spec.password && '"' !in spec.gitUrl
    && '"' !in spec.gitRef
  }

  lemma KeysPlain(spec: Spec, id: nat, i: nat)
    requires i < |Vars(spec, id)|
    ensures '"' !in Vars(spec, id)[i].0
  {
    hide Dec;
  }

  lemma ValuesPlain(spec: Spec, id: nat, i: nat)
    requires QuoteFree(spec) && i < |Vars(spec, id)|
    ensures '"' !in Vars(spec, id)[i].1
  {
    DecDigits(id);
    hide Dec;
  }

  /** If no setting contains a quote, the text reads back as exactly these fields. */
  lemma VarsReadBack(spec: Spec, id: nat)
    requires QuoteFree(spec)
    ensures ReadVars(VarsText(Vars(spec, id))) == Vars(spec, id)
  {
    hide Vars, Entries, PairsIn;
    var fields := Vars(spec, id);
    forall f | f in fields ensures '"' !in f.0 && '"' !in f.1 {
      var i :| 0 <= i < |fields| && fields[i] == f;
      KeysPlain(spec, id, i);
      ValuesPlain(spec, id, i);
    }
    EntriesReadBack("{\n\t", fields);
  }

  function Block(spec: Spec, id: nat): Plan {
    [EnsureStep(Key(Namespace, "", GUIDES), Bare),
     EnsureStep(Key(ConfigMap, GUIDES, Name(id) + "-env"), Bare),
     EnsureStep(Key(ConfigMap, GUIDES, Name(id) + "-vars"), Bare),
     EnsureStep(Key(ServiceAccount, GUIDES, Name(id)), Bare),
     EnsureStep(Key(RoleBinding, GUIDES, Name(id)), Names([Name(id)])),
     SyncStep(Key(Deployment, GUIDES, Name(id)), Environment(spec, id), Same),
     EnsureStep(Key(Service, GUIDES, Name(id)), Bare),
     EnsureStep(Key(Route, GUIDES, Name(id)), Bare)]
  }

  function Blocks(spec: Spec): seq<Plan> {
    if spec.bookbagEnabled then seq(spec.Seats(), i requires 0 <= i < spec.Seats() => Block(spec, i + 1)) else []
  }

  function TheLoop(spec: Spec): Loop {
    Loop(Blocks(spec), if spec.bookbagEnabled then spec.Seats() + 1 else 1, Deployment, GUIDES, "bookbag-")
  }

  function Stage(spec: Spec): Plan {
    TheLoop(spec).Plan()
  }

  /** The deployments the stage creates are never among the names it scans for. */
  lemma NameNotScanned(id: nat, j: nat)
    ensures Name(id) != "bookbag-" + Dec(j)
  {
    assert Name(id)[0] == 'u';
    assert ("bookbag-" + Dec(j))[0] == 'b';
  }

  lemma LoopValid(spec: Spec)
    ensures TheLoop(spec).Valid()
  {
    var loop := TheLoop(spec);
    forall b, i | 0 <= b < |loop.blocks| && 0 <= i < |loop.blocks[b]| ensures loop.Harmless(loop.blocks[b][i]) {
      forall j: nat | loop.start <= j
        ensures Makes(loop.blocks[b][i]) != Some(Numbered(Deployment, GUIDES, "bookbag-", j))
      {
        NameNotScanned(b + 1, j);
      }
    }
  }

  method AddUpdateBookbag(c: Client, spec: Spec, id: nat) returns (r: Result)
    modifies c
    ensures Answer(c.State(), r) == Run(Block(spec, id), 0, old(c.State()))
  {
    hide Do, Environment;
    ghost var p, goal := Block(spec, id), Run(Block(spec, id), 0, c.State());
    var name := Name(id);
    r := Ensure(c, Key(Namespace, "", GUIDES), Bare);
    if r != Done { return; }
    assert goal == Run(p, 1, c.State());
    r := Ensure(c, Key(ConfigMap, GUIDES, name + "-env"), Bare);
    if r != Done { return; }
    assert goal == Run(p, 2, c.State());
    r := Ensure(c, Key(ConfigMap, GUIDES, name + "-vars"), Bare);
    if r != Done { return; }
    assert goal == Run(p, 3, c.State());
    r := Ensure(c, Key(ServiceAccount, GUIDES, name), Bare);
    if r != Done { return; }
    assert goal == Run(p, 4, c.State());
    r := Ensure(c, Key(RoleBinding, GUIDES, name), Names([name]));
    if r != Done { return; }
    assert goal == Run(p, 5, c.State());
    r := Sync(c, Key(Deployment, GUIDES, name), Environment(spec, id), Same);
    if r != Done { return; }
    assert goal == Run(p, 6, c.State());
    r := Ensure(c, Key(Service, GUIDES, name), Bare);
    if r != Done { return; }
    assert goal == Run(p, 7, c.State());
    r := Ensure(c, Key(Route, GUIDES, name), Bare);
    if r != Done { return; }
    assert goal == Run(p, 8, c.State());
  }

  /** Halts on every store and every finite fault script, within the stated number of rounds. */
  method ReconcileBookbag(c: Client, spec: Spec) returns (r: Result, ghost rounds: nat)
    modifies c
    ensures Answer(c.State(), r) == Run(Stage(spec), 0, old(c.State()))
    ensures rounds <= spec.Seats() + |Remaining(old(c.store), Deployment, GUIDES, "bookbag-", TheLoop(spec).start)|
                      + Faulty(old(c.script)) + 1
  {
    hide Do, DoGet, Run, ScanFrom, Flat, Loop.Budget, Loop.Rest, Loop.Plan, Loop.Valid;
    ghost var loop := TheLoop(spec);
    ghost var goal, budget := Run(Stage(spec), 0, c.State()), loop.Budget(1, c.State());
    StartBudget(spec, c.State());
    LoopValid(spec);
    loop.RestStart(c.State());
    var users := spec.Seats();
    var id := 1;
    rounds := 0;
    r := Done;
    while true
      invariant id >= 1 && r == Done
      invariant loop.Rest(id, c.State()) == goal
      invariant rounds + loop.Budget(id, c.State()) <= budget
      decreases loop.Budget(id, c.State())
    {
      rounds := rounds + 1;
      if id <= users && spec.bookbagEnabled {
        loop.AddRound(id, c.State());
        r := AddUpdateBookbag(c, spec, id);
        if r != Done { return; }
      } else {
        loop.ScanRound(id, c.State());
        var out := c.Get(Key(Deployment, GUIDES, "bookbag-" + Dec(id)));
        if out == NotFound {
          break;
        }
      }
      id := id + 1;
    }
  }

  lemma StartBudget(spec: Spec, w: World)
    ensures TheLoop(spec).Budget(1, w) <=
            spec.Seats() + |Remaining(w.store, Deployment, GUIDES, "bookbag-", TheLoop(spec).start)| + Faulty(w.script)
  {
  }

  lemma BlockMakes(spec: Spec, b: Plan, s: Step)
    requires b in Blocks(spec) && s in b
    ensures s.EnsureStep? || s.SyncStep?
    ensures s.SyncStep? ==> s.key.kind == Deployment && s.key.ns == GUIDES
  {
    hide Name, Environment;
  }

  lemma StageBuilds(spec: Spec)
    ensures Building(Stage(spec))
    ensures forall s :: s in Stage(spec) && s.SyncStep? ==> s.key.kind == Deployment && s.key.ns == GUIDES
  {
    hide Blocks, Loop.Plan;
    forall s | s in Stage(spec) ensures Builder(s) && (s.SyncStep? ==> s.key.kind == Deployment && s.key.ns == GUIDES) {
      TheLoop(spec).InPlan(s);
      if s != TheLoop(spec).Scan() {
        var b :| b in Blocks(spec) && s in b;
        BlockMakes(spec, b, s);
      }
    }
    forall i | 0 <= i < |Stage(spec)| ensures Builder(Stage(spec)[i]) { assert Stage(spec)[i] in Stage(spec); }
  }

  /** The stage removes nothing and changes nothing but bookbag deployments, under any faults; and when it ends
      normally with bookbags enabled, every object of every user 1 .. n is there. */
  lemma EveryUserServed(spec: Spec, w: World)
    ensures var v := Run(Stage(spec), 0, w).w;
            forall k :: k in w.store ==>
                k in v.store && (v.store[k] == w.store[k] || (k.kind == Deployment && k.ns == GUIDES))
    ensures Run(Stage(spec), 0, w).r == Done && spec.bookbagEnabled ==>
              forall id: nat, s :: 1 <= id <= spec.Seats() && s in Block(spec, id) ==>
                Makes(s).Some? && Makes(s).value in Run(Stage(spec), 0, w).w.store
  {
    hide Run, Block, Loop.Plan;
    var p := Stage(spec);
    StageBuilds(spec);
    forall j | 0 <= j < |p| && p[j].SyncStep?
      ensures p[j].key.kind == Deployment && p[j].key.ns == GUIDES
    {
      assert p[j] in p;
    }
    RunKeeps(p, 0, w);
    if Run(p, 0, w).r == Done && spec.bookbagEnabled {
      forall id: nat, s | 1 <= id <= spec.Seats() && s in Block(spec, id)
        ensures Makes(s).Some? && Makes(s).value in Run(p, 0, w).w.store
      {
        assert Blocks(spec)[id - 1] == Block(spec, id);
        TheLoop(spec).InPlan(s);
        BlockMakes(spec, Block(spec, id), s);
        var j :| 0 <= j < |p| && p[j] == s;
        RunMade(p, j, w);
      }
    }
  }
}
