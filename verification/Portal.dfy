/** The portal stage: redis and the username distribution, with a text built from a map in iteration order. */
module PortalStage {
  import opened World
  import opened Cluster
  import opened Steps
  import opened Plans
  import opened Calls
  import opened Strings = Text

  /* ---------- LAB_MODULE_URLS ---------- */

  const DEFAULT_URL := "https://docs.openshift.com/container-platform/latest/welcome/index.html;openshift_docs"

  function Parameters(spec: Spec): string {
    "APPS_HOSTNAME_SUFFIX=" + spec.suffix + "&USER_ID=%USER_ID%&OPENSHIFT_PASSWORD=" + spec.password
    + "&WORKSHOP_GIT_REPO=" + QueryEscape(spec.gitUrl) + "&WORKSHOP_GIT_REF=" + spec.gitRef
  }

  function Guide(spec: Spec, name: string): string {
    Lookup(spec.guides, name) + "?" + Parameters(spec) + ";" + name
  }

  function Guides(spec: Spec, order: seq<string>): seq<string> {
    seq(|order|, i requires 0 <= i < |order| => Guide(spec, order[i]))
  }

  function ModuleUrls(spec: Spec, order: seq<string>): string {
    if spec.scholars && order != [] then Join(Guides(spec, order), ',') else DEFAULT_URL
  }

  method BuildModuleUrls(spec: Spec) returns (labModuleUrls: string, ghost order: seq<string>)
    ensures Ordering(order, spec.guides.Keys) && labModuleUrls == ModuleUrls(spec, order)
    ensures exists o :: Ordering(o, spec.guides.Keys) && labModuleUrls == ModuleUrls(spec, o)
  {
    labModuleUrls := DEFAULT_URL;
    var names := InSomeOrder(spec.guides.Keys);
    order := names;
    if spec.scholars {
      var isFirst := true;
      for i := 0 to |names|
        invariant isFirst == (i == 0)
        invariant labModuleUrls == ModuleUrls(spec, names[..i])
      {
        assert Guides(spec, names[..i + 1])[..i] == Guides(spec, names[..i]);
        if isFirst {
          labModuleUrls := spec.guides[names[i]] + "?" + Parameters(spec) + ";" + names[i];
          isFirst := false;
        } else {
          labModuleUrls := labModuleUrls + "," + (spec.guides[names[i]] + "?" + Parameters(spec) + ";" + names[i]);
        }
      }
      assert names[..|names|] == names;
    }
  }

  ghost predicate CommaFree(spec: Spec) {
    && ',' !in spec.suffix && ',' !in spec.password && ',' !in spec.gitRef
    && forall n :: n in spec.guides ==> ',' !in n && ',' !in spec.guides[n]
  }

  /** The repository URL may contain commas: it is escaped. */
  lemma ParametersCommaFree(spec: Spec)
    requires CommaFree(spec)
    ensures ',' !in Parameters(spec)
  {
    hide QueryEscape;
    EscapedPlain(spec.gitUrl, ',');
    assert ',' !in "APPS_HOSTNAME_SUFFIX=" && ',' !in "&USER_ID=%USER_ID%&OPENSHIFT_PASSWORD="
        && ',' !in "&WORKSHOP_GIT_REPO="
           && ',' !in "&WORKSHOP_GIT_REF=";
  }

  lemma QueryKeys()
    ensures "&USER_ID=%USER_ID%&OPENSHIFT_PASSWORD=" == ['&'] + ("USER_ID=%USER_ID%" + (['&'] + "OPENSHIFT_PASSWORD="))
  {
  }

  lemma GitKeys()
    ensures "&WORKSHOP_GIT_REPO=" == ['&'] + "WORKSHOP_GIT_REPO=" && "&WORKSHOP_GIT_REF=" == ['&'] + "WORKSHOP_GIT_REF="
  {
  }

  lemma QueryKeysPlain()
    ensures '&' !in "APPS_HOSTNAME_SUFFIX=" && '&' !in "USER_ID=%USER_ID%" && '&' !in "OPENSHIFT_PASSWORD="
    ensures '&' !in "WORKSHOP_GIT_REPO=" && '&' !in "WORKSHOP_GIT_REF="
  {
  }

  /** With settings free of ampersands the query string splits into these five parameters, whatever the repository. */
  lemma FiveParameters(spec: Spec)
    requires '&' !in spec.suffix && '&' !in spec.password && '&' !in spec.gitRef
    ensures Split(Parameters(spec), '&') ==
            ["APPS_HOSTNAME_SUFFIX=" + spec.suffix, "USER_ID=%USER_ID%", "OPENSHIFT_PASSWORD=" + spec.password,
             "WORKSHOP_GIT_REPO=" + QueryEscape(spec.gitUrl), "WORKSHOP_GIT_REF=" + spec.gitRef]
    ensures Unescape(QueryEscape(spec.gitUrl)) == Bytes(spec.gitUrl)
  {
    EscapedPlain(spec.gitUrl, '&');
    EscapeRoundTrip(spec.gitUrl);
    QueryKeys();
    GitKeys();
    QueryKeysPlain();
    hide QueryEscape, Split, Unescape, Bytes;
    QuerySplits("APPS_HOSTNAME_SUFFIX=", spec.suffix, "USER_ID=%USER_ID%", "OPENSHIFT_PASSWORD=", spec.password,
                "WORKSHOP_GIT_REPO=", QueryEscape(spec.gitUrl), "WORKSHOP_GIT_REF=", spec.gitRef, '&');
  }

  /** A query string of a fixed part and four keys with values. */
  lemma QuerySplits(k1: string, s: string, u: string, k2: string, p: string, k3: string, g: string, k4: string,
                    r: string, sep: char)
    requires sep !in k1 && sep !in s && sep !in u && sep !in k2 && sep !in p && sep !in k3 && sep !in g
    requires sep !in k4 && sep !in r
    ensures Split(k1 + s + ([sep] + (u + ([sep] + k2))) + p + ([sep] + k3) + g + ([sep] + k4) + r, sep) ==
            [k1 + s, u, k2 + p, k3 + g, k4 + r]
  {
    hide Split;
    var amp := [sep];
    FiveParts(k1 + s, u, k2 + p, k3 + g, k4 + r, sep);
    Regroup(k1, s, u, k2, p, k3, g, k4, r, amp);
  }

  lemma Regroup(k1: string, s: string, u: string, k2: string, p: string, k3: string, g: string, k4: string, r: string,
                amp: string)
    ensures k1 + s + (amp + (u + (amp + k2))) + p + (amp + k3) + g + (amp + k4) + r ==
            (k1 + s) + amp + (u + amp + ((k2 + p) + amp + ((k3 + g) + amp + (k4 + r))))
  {
  }

  lemma FiveParts(a: string, b: string, c: string, d: string, e: string, sep: char)
    requires sep !in a && sep !in b && sep !in c && sep !in d && sep !in e
    ensures Split(a + [sep] + (b + [sep] + (c + [sep] + (d + [sep] + e))), sep) == [a, b, c, d, e]
  {
    hide Split;
    SplitFree(e, sep);
    SplitHead(d, sep, e);
    SplitHead(c, sep, d + [sep] + e);
    SplitHead(b, sep, c + [sep] + (d + [sep] + e));
    SplitHead(a, sep, b + [sep] + (c + [sep] + (d + [sep] + e)));
  }

  /** For every iteration order the text splits into one entry per guide. */
  lemma OneEntryPerGuide(spec: Spec, order: seq<string>)
    requires spec.scholars && CommaFree(spec) && order != [] && Ordering(order, spec.guides.Keys)
    ensures Split(ModuleUrls(spec, order), ',') == Guides(spec, order)
    ensures |order| == |spec.guides|
  {
    ParametersCommaFree(spec);
    hide Parameters;
    forall p | p in Guides(spec, order) ensures ',' !in p {
      var i :| 0 <= i < |order| && p == Guide(spec, order[i]);
      assert order[i] in spec.guides;
    }
    SplitJoin(Guides(spec, order), ',');
    OrderingSize(order, spec.guides.Keys);
  }

  lemma GuidesAround(spec: Spec, u: seq<string>, x: string, v: seq<string>)
    ensures multiset(Guides(spec, u + [x] + v)) == multiset(Guides(spec, u + v)) + multiset{Guide(spec, x)}
  {
    assert Guides(spec, u + [x] + v) == Guides(spec, u) + [Guide(spec, x)] + Guides(spec, v);
    assert Guides(spec, u + v) == Guides(spec, u) + Guides(spec, v);
  }

  lemma OrderingWithout(u: seq<string>, x: string, v: seq<string>, names: set<string>)
    requires Ordering(u + [x] + v, names)
    ensures Ordering(u + v, names - {x})
  {
    var all, less := u + [x] + v, u + v;
    assert all[|u|] == x;
    forall i | 0 <= i < |less| ensures less[i] != x && less[i] in names {
      assert less[i] == all[if i < |u| then i else i + 1];
    }
    forall n | n in names && n != x ensures n in less {
      var i :| 0 <= i < |all| && all[i] == n;
      assert less[if i < |u| then i else i - 1] == n;
    }
    forall i, j | 0 <= i < j < |less| ensures less[i] != less[j] {
      assert less[i] == all[if i < |u| then i else i + 1] && less[j] == all[if j < |u| then j else j + 1];
    }
  }

  lemma SameLength(a: seq<string>, b: seq<string>, names: set<string>)
    requires Ordering(a, names) && Ordering(b, names)
    ensures |a| == |b|
  {
    OrderingSize(a, names);
    OrderingSize(b, names);
  }

  lemma {:induction false} GuidesPermute(spec: Spec, a: seq<string>, b: seq<string>, names: set<string>)
    requires Ordering(a, names) && Ordering(b, names)
    ensures multiset(Guides(spec, a)) == multiset(Guides(spec, b))
    decreases |a|
  {
    if a == [] {
      SameLength(a, b, names);
    } else {
      var x := a[0];
      assert x in names;
      var j :| 0 <= j < |b| && b[j] == x;
      var u, v := b[..j], b[j + 1..];
      assert a == [] + [x] + a[1..] && b == u + [x] + v && [] + a[1..] == a[1..];
      OrderingWithout([], x, a[1..], names);
      OrderingWithout(u, x, v, names);
      GuidesAround(spec, [], x, a[1..]);
      GuidesAround(spec, u, x, v);
      GuidesPermute(spec, a[1..], u + v, names - {x});
    }
  }

  /** Any two iteration orders give permutations of the same entries. */
  lemma OrderIndependent(spec: Spec, a: seq<string>, b: seq<string>)
    requires spec.scholars && CommaFree(spec) && spec.guides != map[]
    requires Ordering(a, spec.guides.Keys) && Ordering(b, spec.guides.Keys)
    ensures multiset(Split(ModuleUrls(spec, a), ',')) == multiset(Split(ModuleUrls(spec, b), ','))
  {
    var n :| n in spec.guides;
    assert n in a && n in b;
    OneEntryPerGuide(spec, a);
    OneEntryPerGuide(spec, b);
    GuidesPermute(spec, a, b, spec.guides.Keys);
  }

  /* ---------- The stage ---------- */

  /** The compared environment of the username distribution, item by item, and its image. */
  function Environment(spec: Spec, moduleUrls: string): Obj {
    Names(["LAB_REDIS_HOST=redis", "LAB_REDIS_PASS=redis", "LAB_TITLE=OpenShift Workshops", "LAB_DURATION_HOURS=1week",
           "LAB_USER_COUNT=" + Dec(spec.Seats()), "LAB_USER_ACCESS_TOKEN=" + spec.password,
           "LAB_USER_PASS=" + spec.password, "LAB_USER_PREFIX=user", "LAB_USER_PAD_ZERO=false",
           "LAB_ADMIN_PASS=r3dh4t1!", "LAB_MODULE_URLS=" + moduleUrls,
           "quay.io/mcouliba/username-distribution:latest"])
  }

  function RedisPlan(spec: Spec): Plan {
    [EnsureStep(Key(Secret, spec.namespace, "redis"), Bare),
     EnsureStep(Key(PersistentVolumeClaim, spec.namespace, "redis"), Bare),
     SyncStep(Key(Deployment, spec.namespace, "redis"), Names(["REDIS_PASSWORD"]), Same),
     EnsureStep(Key(Service, spec.namespace, "redis"), Bare)]
  }

  function DistributionPlan(spec: Spec, order: seq<string>): Plan {
    [SyncStep(Key(Deployment, spec.namespace, "portal"), Environment(spec, ModuleUrls(spec, order)), Same),
     EnsureStep(Key(Service, spec.namespace, "portal"), Bare),
     EnsureStep(Key(Route, spec.namespace, "portal"), Bare)]
  }

  function Stage(spec: Spec, order: seq<string>): Plan {
    RedisPlan(spec) + DistributionPlan(spec, order)
  }

  method AddRedis(c: Client, spec: Spec) returns (r: Result)
    modifies c
    ensures Answer(c.State(), r) == Run(RedisPlan(spec), 0, old(c.State()))
  {
    hide Do;
    ghost var p, goal := RedisPlan(spec), Run(RedisPlan(spec), 0, c.State());
    r := Ensure(c, Key(Secret, spec.namespace, "redis"), Bare);
    if r != Done { return; }
    assert goal == Run(p, 1, c.State());
    r := Ensure(c, Key(PersistentVolumeClaim, spec.namespace, "redis"), Bare);
    if r != Done { return; }
    assert goal == Run(p, 2, c.State());
    r := Sync(c, Key(Deployment, spec.namespace, "redis"), Names(["REDIS_PASSWORD"]), Same);
    if r != Done { return; }
    assert goal == Run(p, 3, c.State());
    r := Ensure(c, Key(Service, spec.namespace, "redis"), Bare);
  }

  method AddUpdateUsernameDistribution(c: Client, spec: Spec) returns (r: Result, ghost order: seq<string>)
    modifies c
    ensures Ordering(order, spec.guides.Keys)
    ensures Answer(c.State(), r) == Run(DistributionPlan(spec, order), 0, old(c.State()))
  {
    hide Do;
    var urls;
    urls, order := BuildModuleUrls(spec);
    ghost var p, goal := DistributionPlan(spec, order), Run(DistributionPlan(spec, order), 0, c.State());
    r := Sync(c, Key(Deployment, spec.namespace, "portal"), Environment(spec, urls), Same);
    if r != Done { return; }
    assert goal == Run(p, 1, c.State());
    r := Ensure(c, Key(Service, spec.namespace, "portal"), Bare);
    if r != Done { return; }
    assert goal == Run(p, 2, c.State());
    r := Ensure(c, Key(Route, spec.namespace, "portal"), Bare);
  }

  method ReconcilePortal(c: Client, spec: Spec) returns (r: Result, ghost order: seq<string>)
    modifies c
    ensures Ordering(order, spec.guides.Keys)
    ensures Answer(c.State(), r) == Run(Stage(spec, order), 0, old(c.State()))
  {
    hide Do;
    ghost var w := c.State();
    order := SomeOrder(spec.guides.Keys);
    r := AddRedis(c, spec);
    RunConcat(RedisPlan(spec), DistributionPlan(spec, order), 0, w);
    if r != Done { return; }
    r, order := AddUpdateUsernameDistribution(c, spec);
    RunConcat(RedisPlan(spec), DistributionPlan(spec, order), 0, w);
  }

  /* ---------- deletePortal ---------- */

  function DeletePlan(spec: Spec): Plan {
    [RemoveStep(Key(Route, spec.namespace, "portal")),
     RemoveStep(Key(Service, spec.namespace, "portal")),
     DropStep(Key(Deployment, spec.namespace, "portal")),
     RemoveStep(Key(Service, spec.namespace, "redis")),
     RemoveStep(Key(Deployment, spec.namespace, "redis")),
     RemoveStep(Key(PersistentVolumeClaim, spec.namespace, "redis")),
     RemoveStep(Key(Secret, spec.namespace, "redis"))]
  }

  method DeletePortal(c: Client, spec: Spec) returns (r: Result)
    modifies c
    ensures Answer(c.State(), r) == Run(DeletePlan(spec), 0, old(c.State()))
  {
    hide Do;
    ghost var p, goal := DeletePlan(spec), Run(DeletePlan(spec), 0, c.State());
    r := Remove(c, Key(Route, spec.namespace, "portal"));
    if r != Done { return; }
    assert goal == Run(p, 1, c.State());
    r := Remove(c, Key(Service, spec.namespace, "portal"));
    if r != Done { return; }
    assert goal == Run(p, 2, c.State());
    r := Drop(c, Key(Deployment, spec.namespace, "portal"));
    if r != Done { return; }
    assert goal == Run(p, 3, c.State());
    r := Remove(c, Key(Service, spec.namespace, "redis"));
    if r != Done { return; }
    assert goal == Run(p, 4, c.State());
    r := Remove(c, Key(Deployment, spec.namespace, "redis"));
    if r != Done { return; }
    assert goal == Run(p, 5, c.State());
    r := Remove(c, Key(PersistentVolumeClaim, spec.namespace, "redis"));
    if r != Done { return; }
    assert goal == Run(p, 6, c.State());
    r := Remove(c, Key(Secret, spec.namespace, "redis"));
  }
}
