/** The Argo CD RBAC policy text: how it is built per user, and what its lines grant once parsed. */
module Policy {
  import opened Strings = Text

  /* ---------- Building the text ---------- */

  const CLUSTER := "https://kubernetes.default.svc"
  const GIT := "http://gitea-server.gitea.svc:3000/"

  function User(id: nat): string {
    "user" + Dec(id)
  }

  function Role(id: nat): string {
    "role:" + User(id)
  }

  function Project(staging: string, id: nat): string {
    staging + Dec(id)
  }

  function AppLine(staging: string, id: nat): string {
    "p, " + Role(id) + ", applications, *, " + Project(staging, id) + "/*, allow"
  }

  function ClusterLine(id: nat): string {
    "p, " + Role(id) + ", clusters, get, " + CLUSTER + ", allow"
  }

  function ProjectLine(staging: string, id: nat): string {
    "p, " + Role(id) + ", projects, *," + Project(staging, id) + ", allow"
  }

  function RepoLine(id: nat): string {
    "p, " + Role(id) + ", repositories, *, " + GIT + User(id) + "/*, allow"
  }

  function LinkLine(id: nat): string {
    "g, " + User(id) + ", " + Role(id)
  }

  function UserPolicy(staging: string, id: nat): string {
    AppLine(staging, id) + "\n" + ClusterLine(id) + "\n" + ProjectLine(staging, id) + "\n" + RepoLine(id) + "\n"
        + LinkLine(id) + "\n"
  }

  /** The policy of the users 1 .. n. */
  function PolicyText(staging: string, n: nat): string {
    if n == 0 then "" else PolicyText(staging, n - 1) + UserPolicy(staging, n)
  }

  /* ---------- Splitting it into records ---------- */

  function UserLines(staging: string, id: nat): seq<string> {
    [AppLine(staging, id), ClusterLine(id), ProjectLine(staging, id), RepoLine(id), LinkLine(id)]
  }

  function AllLines(staging: string, n: nat): seq<string> {
    if n == 0 then [] else AllLines(staging, n - 1) + UserLines(staging, n)
  }

  /** A staging name that cannot break a record: no separator, no blank, no wildcard. */
  predicate Clean(staging: string) {
    ',' !in staging && '\n' !in staging && ' ' !in staging && '*' !in staging
  }

  lemma NamesClean(staging: string, id: nat)
    requires Clean(staging)
    ensures Clean(Project(staging, id)) && Clean(User(id)) && Clean(Role(id))
    ensures Project(staging, id) != ""
  {
    DecDigits(id);
  }

  lemma AppBreak(staging: string, id: nat)
    requires Clean(staging)
    ensures '\n' !in AppLine(staging, id)
  {
    NamesClean(staging, id);
    assert '\n' !in ", applications, *, " && '\n' !in "/*, allow";
  }

  lemma ClusterBreak(id: nat)
    ensures '\n' !in ClusterLine(id)
  {
    NamesClean("", id);
    assert '\n' !in ", clusters, get, " && '\n' !in CLUSTER;
  }

  lemma ProjectBreak(staging: string, id: nat)
    requires Clean(staging)
    ensures '\n' !in ProjectLine(staging, id)
  {
    NamesClean(staging, id);
    assert '\n' !in ", projects, *,";
  }

  lemma RepoBreak(id: nat)
    ensures '\n' !in RepoLine(id)
  {
    NamesClean("", id);
    assert '\n' !in ", repositories, *, " && '\n' !in GIT && '\n' !in "/*, allow";
  }

  lemma LinkBreak(id: nat)
    ensures '\n' !in LinkLine(id)
  {
    NamesClean("", id);
  }

  lemma FiveText(a: string, b: string, c: string, d: string, e: string)
    ensures a + "\n" + b + "\n" + c + "\n" + d + "\n" + e + "\n"
            == a + ['\n'] + (b + ['\n'] + (c + ['\n'] + (d + ['\n'] + (e + ['\n'] + ""))))
  {
  }

  lemma SplitFive(a: string, b: string, c: string, d: string, e: string)
    requires '\n' !in a && '\n' !in b && '\n' !in c && '\n' !in d && '\n' !in e
    ensures Split(a + "\n" + b + "\n" + c + "\n" + d + "\n" + e + "\n", '\n') == [a, b, c, d, e, ""]
  {
    hide Split;
    FiveText(a, b, c, d, e);
    var t4 := e + ['\n'] + "";
    var t3 := d + ['\n'] + t4;
    var t2 := c + ['\n'] + t3;
    var t1 := b + ['\n'] + t2;
    SplitFree("", '\n');
    SplitHead(e, '\n', "");
    SplitHead(d, '\n', t4);
    SplitHead(c, '\n', t3);
    SplitHead(b, '\n', t2);
    SplitHead(a, '\n', t1);
  }

  lemma SplitUser(staging: string, id: nat)
    requires Clean(staging)
    ensures Split(UserPolicy(staging, id), '\n') == UserLines(staging, id) + [""]
  {
    AppBreak(staging, id);
    ClusterBreak(id);
    ProjectBreak(staging, id);
    RepoBreak(id);
    LinkBreak(id);
    hide AppLine, ClusterLine, ProjectLine, RepoLine, LinkLine;
    SplitFive(AppLine(staging, id), ClusterLine(id), ProjectLine(staging, id), RepoLine(id), LinkLine(id));
  }

  /** The parts of the text behind the first character, when the whole text ends with the separator. */
  lemma PartsBehind(front: string, sep: char, parts: seq<string>) returns (shorter: seq<string>)
    requires front != "" && Split(front, sep) == parts + [""]
    ensures Split(front[1..], sep) == shorter + [""]
    ensures if front[0] == sep then parts == [""] + shorter
            else shorter != [] && parts == [[front[0]] + shorter[0]] + shorter[1..]
  {
    var all, rest := Split(front, sep), Split(front[1..], sep);
    assert all[|all| - 1] == "";
    if front[0] == sep {
      shorter := parts[1..];
      assert rest == all[1..];
    } else {
      assert |all| == |rest| && |parts| > 0 && parts[0] == all[0];
      shorter := [rest[0]] + parts[1..];
      assert rest[1..] == all[1..] == parts[1..] + [""];
    }
  }

  /** The parts of a text from its first character and the parts of what follows. */
  function Grow(c: char, sep: char, rest: seq<string>): seq<string>
    requires rest != []
  {
    if c == sep then [""] + rest else [[c] + rest[0]] + rest[1..]
  }

  lemma SplitStep(s: string, sep: char)
    requires s != ""
    ensures Split(s, sep) == Grow(s[0], sep, Split(s[1..], sep))
  {
  }

  lemma GrowFront(c: char, sep: char, parts: seq<string>, shorter: seq<string>, back: seq<string>)
    requires back != []
    requires if c == sep then parts == [""] + shorter
             else shorter != [] && parts == [[c] + shorter[0]] + shorter[1..]
    ensures Grow(c, sep, shorter + back) == parts + back
  {
    if c != sep {
      assert (shorter + back)[1..] == shorter[1..] + back;
    }
  }

  /** Text that ends with the separator keeps its parts when more text follows. */
  lemma {:induction false} SplitAfter(front: string, back: string, sep: char, parts: seq<string>)
    requires Split(front, sep) == parts + [""]
    ensures Split(front + back, sep) == parts + Split(back, sep)
  {
    if front == "" {
      assert front + back == back;
      assert |parts + [""]| == 1;
    } else {
      hide Split;
      var shorter := PartsBehind(front, sep, parts);
      var all := front + back;
      assert all[1..] == front[1..] + back && all[0] == front[0];
      SplitAfter(front[1..], back, sep, shorter);
      SplitStep(all, sep);
      GrowFront(front[0], sep, parts, shorter, Split(back, sep));
    }
  }

  lemma {:induction false} FivePerUser(staging: string, n: nat)
    ensures |AllLines(staging, n)| == 5 * n
  {
    if n > 0 {
      FivePerUser(staging, n - 1);
    }
  }

  lemma {:induction false} SplitPolicy(staging: string, n: nat)
    requires Clean(staging)
    ensures Split(PolicyText(staging, n), '\n') == AllLines(staging, n) + [""]
  {
    hide UserPolicy, UserLines, Split, Clean;
    if n > 0 {
      var front, back := PolicyText(staging, n - 1), UserPolicy(staging, n);
      SplitPolicy(staging, n - 1);
      SplitUser(staging, n);
      SplitAfter(front, back, '\n', AllLines(staging, n - 1));
    } else {
      SplitFree("", '\n');
    }
  }

  /** The text for n users splits into exactly 5n records, and one empty rest after the last line break. */
  lemma Records(staging: string, n: nat)
    requires Clean(staging)
    ensures Split(PolicyText(staging, n), '\n') == AllLines(staging, n) + [""]
    ensures |AllLines(staging, n)| == 5 * n
  {
    SplitPolicy(staging, n);
    FivePerUser(staging, n);
  }

  lemma {:induction false} InAllLines(staging: string, n: nat, l: string)
    ensures l in AllLines(staging, n) <==> exists i: nat :: 1 <= i <= n && l in UserLines(staging, i)
  {
    if n > 0 {
      InAllLines(staging, n - 1, l);
    }
  }

  /* ---------- Reading a record ---------- */

  function TrimLeft(s: string): string {
    if s != "" && s[0] == ' ' then TrimLeft(s[1..]) else s
  }

  /** The comma-separated fields of a record without their leading blanks. */
  function Fields(line: string): seq<string> {
    var parts := Split(line, ',');
    seq(|parts|, i requires 0 <= i < |parts| => TrimLeft(parts[i]))
  }

  lemma FieldsHead(p: string, rest: string)
    requires ',' !in p
    ensures Fields(p + [','] + rest) == [TrimLeft(p)] + Fields(rest)
  {
    SplitHead(p, ',', rest);
  }

  lemma FieldsLast(p: string)
    requires ',' !in p
    ensures Fields(p) == [TrimLeft(p)]
  {
    SplitFree(p, ',');
  }

  lemma {:induction false} TrimClean(s: string)
    requires ' ' !in s
    ensures TrimLeft(s) == s && TrimLeft(" " + s) == s
  {
    assert (" " + s)[1..] == s;
  }

  /** Six comma- and blank-free fields, each but the first possibly behind a blank. */
  lemma Fields6(a: string, b: string, c: string, d: string, e: string, f: string, blank: string)
    requires Plain(a) && Plain(b) && Plain(c) && Plain(d) && Plain(e) && Plain(f) && (blank == "" || blank == " ")
    ensures Fields(a + [',']
        + (" " + b + [','] + (" " + c + [','] + (" " + d + [','] + (blank + e + [','] + (" " + f))))))
            == [a, b, c, d, e, f]
  {
    var t5 := " " + f;
    var t4 := blank + e + [','] + t5;
    var t3 := " " + d + [','] + t4;
    var t2 := " " + c + [','] + t3;
    var t1 := " " + b + [','] + t2;
    FieldsLast(t5);
    FieldsHead(blank + e, t5);
    FieldsHead(" " + d, t4);
    FieldsHead(" " + c, t3);
    FieldsHead(" " + b, t2);
    FieldsHead(a, t1);
    assert "" + e == e;
    TrimClean(a); TrimClean(b); TrimClean(c); TrimClean(d); TrimClean(e); TrimClean(f);
  }

  predicate Plain(s: string) {
    ',' !in s && ' ' !in s
  }

  lemma AppShape(r: string, q: string)
    ensures "p, " + r + ", applications, *, " + q + "/*, allow" ==
            "p" + [','] + (" " + r + [',']
                + (" " + "applications" + [','] + (" " + "*" + [','] + (" " + (q + "/*") + [','] + (" " + "allow")))))
  {
  }

  lemma AppFields(staging: string, id: nat)
    requires Clean(staging)
    ensures Fields(AppLine(staging, id)) == ["p", Role(id), "applications", "*", Project(staging, id) + "/*", "allow"]
  {
    NamesClean(staging, id);
    hide Fields, Split;
    AppShape(Role(id), Project(staging, id));
    Fields6("p", Role(id), "applications", "*", Project(staging, id) + "/*", "allow", " ");
  }

  lemma ClusterShape(r: string, u: string)
    ensures "p, " + r + ", clusters, get, " + u + ", allow" ==
            "p" + [','] + (" " + r + [',']
                + (" " + "clusters" + [','] + (" " + "get" + [','] + (" " + u + [','] + (" " + "allow")))))
  {
  }

  lemma ClusterParts(r: string, u: string)
    requires Plain(r) && Plain(u)
    ensures Fields("p, " + r + ", clusters, get, " + u + ", allow") == ["p", r, "clusters", "get", u, "allow"]
  {
    hide Fields, Split;
    ClusterShape(r, u);
    Fields6("p", r, "clusters", "get", u, "allow", " ");
  }

  lemma ClusterFields(id: nat)
    ensures Fields(ClusterLine(id)) == ["p", Role(id), "clusters", "get", CLUSTER, "allow"]
  {
    NamesClean("", id);
    assert Plain(CLUSTER);
    ClusterParts(Role(id), CLUSTER);
  }

  lemma ProjectShape(r: string, q: string)
    ensures "p, " + r + ", projects, *," + q + ", allow" ==
            "p" + [','] + (" " + r + [',']
                + (" " + "projects" + [','] + (" " + "*" + [','] + ("" + q + [','] + (" " + "allow")))))
  {
  }

  lemma ProjectFields(staging: string, id: nat)
    requires Clean(staging)
    ensures Fields(ProjectLine(staging, id)) == ["p", Role(id), "projects", "*", Project(staging, id), "allow"]
  {
    NamesClean(staging, id);
    hide Fields, Split;
    ProjectShape(Role(id), Project(staging, id));
    Fields6("p", Role(id), "projects", "*", Project(staging, id), "allow", "");
  }

  lemma RepoShape(r: string, q: string)
    ensures "p, " + r + ", repositories, *, " + q + "/*, allow" ==
            "p" + [','] + (" " + r + [',']
                + (" " + "repositories" + [','] + (" " + "*" + [','] + (" " + (q + "/*") + [','] + (" " + "allow")))))
  {
  }

  lemma RepoParts(r: string, q: string)
    requires Plain(r) && Plain(q)
    ensures Fields("p, " + r + ", repositories, *, " + q + "/*, allow")
        == ["p", r, "repositories", "*", q + "/*", "allow"]
  {
    hide Fields, Split;
    RepoShape(r, q);
    Fields6("p", r, "repositories", "*", q + "/*", "allow", " ");
  }

  lemma RepoText(r: string, g: string, u: string)
    ensures "p, " + r + ", repositories, *, " + g + u + "/*, allow"
        == "p, " + r + ", repositories, *, " + (g + u) + "/*, allow"
  {
  }

  lemma RepoFields(id: nat)
    ensures Fields(RepoLine(id)) == ["p", Role(id), "repositories", "*", GIT + User(id) + "/*", "allow"]
  {
    hide Fields, Split;
    NamesClean("", id);
    assert Plain(GIT);
    RepoParts(Role(id), GIT + User(id));
    RepoText(Role(id), GIT, User(id));
  }

  lemma LinkFields(id: nat)
    ensures Fields(LinkLine(id)) == ["g", User(id), Role(id)]
  {
    NamesClean("", id);
    var u, r := User(id), Role(id);
    assert LinkLine(id) == "g" + [','] + (" " + u + [','] + (" " + r));
    hide LinkLine, User, Role;
    FieldsLast(" " + r);
    FieldsHead(" " + u, " " + r);
    FieldsHead("g", " " + u + [','] + (" " + r));
    TrimClean("g"); TrimClean(u); TrimClean(r);
  }

  /* ---------- What a policy allows ---------- */

  /** A star matches any text; every other character matches itself. */
  predicate Glob(p: string, s: string)
    decreases |p| + |s|
  {
    if p == "" then s == ""
    else if p[0] == '*' then Glob(p[1..], s) || (s != "" && Glob(p, s[1..]))
    else s != "" && s[0] == p[0] && Glob(p[1..], s[1..])
  }

  ghost predicate Grants(line: string, role: string, res: string, act: string, obj: string) {
    var f := Fields(line);
    |f| == 6 && f[0] == "p" && f[1] == role && Glob(f[2], res) && Glob(f[3], act) && Glob(f[4], obj) && f[5] == "allow"
  }

  ghost predicate Links(line: string, user: string, role: string) {
    Fields(line) == ["g", user, role]
  }

  /** A subject may act if a grant names it, or names a role a link gives to it. */
  ghost predicate Allowed(text: string, subject: string, res: string, act: string, obj: string) {
    exists role, l ::
      && l in Split(text, '\n') && Grants(l, role, res, act, obj)
      && (subject == role || exists m :: m in Split(text, '\n') && Links(m, subject, role))
  }

  lemma {:induction false} GlobStar(s: string)
    ensures Glob("*", s)
  {
    assert "*"[1..] == "";
    if s != "" { GlobStar(s[1..]); }
  }

  lemma {:induction false} GlobLiteral(p: string, s: string)
    requires '*' !in p
    ensures Glob(p, s) <==> p == s
  {
    if p != "" && s != "" {
      GlobLiteral(p[1..], s[1..]);
      assert p == [p[0]] + p[1..] && s == [s[0]] + s[1..];
    }
  }

  lemma {:induction false} GlobPrefix(p: string, s: string)
    requires '*' !in p
    ensures Glob(p + "*", s) <==> p <= s
  {
    if p == "" {
      assert p + "*" == "*";
      GlobStar(s);
    } else if s != "" {
      assert (p + "*")[1..] == p[1..] + "*";
      GlobPrefix(p[1..], s[1..]);
      assert p == [p[0]] + p[1..] && s == [s[0]] + s[1..];
    }
  }

  /** The rights user number id is meant to have. */
  predicate Own(staging: string, id: nat, res: string, act: string, obj: string) {
    || (res == "applications" && Project(staging, id) + "/" <= obj)
    || (res == "clusters" && act == "get" && obj == CLUSTER)
    || (res == "projects" && obj == Project(staging, id))
    || (res == "repositories" && GIT + User(id) + "/" <= obj)
  }

  lemma RecordMeaning(line: string, f: seq<string>, role: string, res: string, act: string, obj: string)
    requires Fields(line) == f && |f| == 6 && f[0] == "p" && f[5] == "allow"
    ensures Grants(line, role, res, act, obj) <==> f[1] == role && Glob(f[2], res) && Glob(f[3], act) && Glob(f[4], obj)
  {
  }

  lemma AppMeaning(staging: string, id: nat, role: string, res: string, act: string, obj: string)
    requires Clean(staging)
    ensures Grants(AppLine(staging, id), role, res, act, obj)
            <==> role == Role(id) && res == "applications" && Project(staging, id) + "/" <= obj
  {
    hide Glob, Fields, AppLine;
    AppFields(staging, id);
    NamesClean(staging, id);
    RecordMeaning(AppLine(staging, id), Fields(AppLine(staging, id)), role, res, act, obj);
    GlobLiteral("applications", res);
    GlobStar(act);
    GlobPrefix(Project(staging, id) + "/", obj);
    assert Project(staging, id) + "/*" == Project(staging, id) + "/" + "*";
  }

  lemma ClusterMeaning(id: nat, role: string, res: string, act: string, obj: string)
    ensures Grants(ClusterLine(id), role, res, act, obj)
            <==> role == Role(id) && res == "clusters" && act == "get" && obj == CLUSTER
  {
    hide Glob, Fields, ClusterLine;
    ClusterFields(id);
    RecordMeaning(ClusterLine(id), Fields(ClusterLine(id)), role, res, act, obj);
    GlobLiteral("clusters", res);
    GlobLiteral("get", act);
    GlobLiteral(CLUSTER, obj);
  }

  lemma ProjectMeaning(staging: string, id: nat, role: string, res: string, act: string, obj: string)
    requires Clean(staging)
    ensures Grants(ProjectLine(staging, id), role, res, act, obj)
            <==> role == Role(id) && res == "projects" && obj == Project(staging, id)
  {
    hide Glob, Fields, ProjectLine;
    ProjectFields(staging, id);
    NamesClean(staging, id);
    RecordMeaning(ProjectLine(staging, id), Fields(ProjectLine(staging, id)), role, res, act, obj);
    GlobLiteral("projects", res);
    GlobStar(act);
    GlobLiteral(Project(staging, id), obj);
  }

  lemma RepoMeaning(id: nat, role: string, res: string, act: string, obj: string)
    ensures Grants(RepoLine(id), role, res, act, obj)
            <==> role == Role(id) && res == "repositories" && GIT + User(id) + "/" <= obj
  {
    hide Glob, Fields, RepoLine;
    RepoFields(id);
    NamesClean("", id);
    RecordMeaning(RepoLine(id), Fields(RepoLine(id)), role, res, act, obj);
    GlobLiteral("repositories", res);
    GlobStar(act);
    GlobPrefix(GIT + User(id) + "/", obj);
    assert GIT + User(id) + "/*" == GIT + User(id) + "/" + "*";
  }

  lemma OneOfFive(staging: string, id: nat, l: string)
    ensures l in UserLines(staging, id) <==>
            l == AppLine(staging, id) || l == ClusterLine(id) || l == ProjectLine(staging, id) || l == RepoLine(id)
                || l == LinkLine(id)
  {
    hide AppLine, ClusterLine, ProjectLine, RepoLine, LinkLine;
    var ls := UserLines(staging, id);
    assert ls[0] == AppLine(staging, id) && ls[1] == ClusterLine(id) && ls[2] == ProjectLine(staging, id)
      && ls[3] == RepoLine(id) && ls[4] == LinkLine(id);
  }

  /** Together the lines of one user grant exactly that user's rights, to that user's role. */
  lemma UserMeaning(staging: string, id: nat, role: string, res: string, act: string, obj: string)
    requires Clean(staging)
    ensures (exists l :: l in UserLines(staging, id) && Grants(l, role, res, act, obj))
            <==> role == Role(id) && Own(staging, id, res, act, obj)
  {
    AppMeaning(staging, id, role, res, act, obj);
    ClusterMeaning(id, role, res, act, obj);
    ProjectMeaning(staging, id, role, res, act, obj);
    RepoMeaning(id, role, res, act, obj);
    LinkFields(id);
    assert !Grants(LinkLine(id), role, res, act, obj);
    forall l { OneOfFive(staging, id, l); }
    hide Grants, UserLines, AppLine, ClusterLine, ProjectLine, RepoLine, LinkLine;
  }

  lemma UserLinks(staging: string, id: nat, user: string, role: string)
    requires Clean(staging)
    ensures (exists l :: l in UserLines(staging, id) && Links(l, user, role)) <==> user == User(id) && role == Role(id)
  {
    AppFields(staging, id);
    ClusterFields(id);
    ProjectFields(staging, id);
    RepoFields(id);
    LinkFields(id);
    forall l { OneOfFive(staging, id, l); }
    hide Fields, UserLines, AppLine, ClusterLine, ProjectLine, RepoLine, LinkLine;
    assert Links(LinkLine(id), user, role) <==> user == User(id) && role == Role(id);
    assert !Links(AppLine(staging, id), user, role) && !Links(ClusterLine(id), user, role);
    assert !Links(ProjectLine(staging, id), user, role) && !Links(RepoLine(id), user, role);
  }

  lemma RolesDistinct(i: nat, j: nat)
    ensures Role(i) == Role(j) <==> i == j
    ensures User(i) == User(j) <==> i == j
    ensures User(i) != Role(j)
  {
    NumberedInjective("role:user", i, j);
    NumberedInjective("user", i, j);
    assert Role(i) == "role:user" + Dec(i) && Role(j) == "role:user" + Dec(j);
    assert User(i)[0] == 'u' && Role(j)[0] == 'r';
  }

  lemma EmptyLine(role: string, res: string, act: string, obj: string, user: string)
    ensures !Grants("", role, res, act, obj) && !Links("", user, role)
  {
  }

  /** The meaning of the whole text, for every number of users and every request: a subject may act exactly when it is
      one of the users, or that user's role, and the request is among that user's own rights. */
  lemma PolicyMeaning(staging: string, n: nat, subject: string, res: string, act: string, obj: string)
    requires Clean(staging)
    ensures Allowed(PolicyText(staging, n), subject, res, act, obj)
            <==> exists i: nat ::
                   1 <= i <= n && (subject == User(i) || subject == Role(i)) && Own(staging, i, res, act, obj)
  {
    var text := PolicyText(staging, n);
    if Allowed(text, subject, res, act, obj) {
      var role, l :| l in Split(text, '\n') && Grants(l, role, res, act, obj)
        && (subject == role || exists m :: m in Split(text, '\n') && Links(m, subject, role));
      var i := GrantSource(staging, n, l, role, res, act, obj);
      if subject != role {
        var m :| m in Split(text, '\n') && Links(m, subject, role);
        var j := LinkSource(staging, n, m, subject, role);
        RolesDistinct(i, j);
      }
    }
    if i: nat :| 1 <= i <= n && (subject == User(i) || subject == Role(i)) && Own(staging, i, res, act, obj) {
      OwnAllowed(staging, n, i, subject, res, act, obj);
    }
  }

  lemma GrantSource(staging: string, n: nat, l: string, role: string, res: string, act: string, obj: string)
    returns (i: nat)
    requires Clean(staging) && l in Split(PolicyText(staging, n), '\n') && Grants(l, role, res, act, obj)
    ensures 1 <= i <= n && role == Role(i) && Own(staging, i, res, act, obj)
  {
    Records(staging, n);
    EmptyLine(role, res, act, obj, "");
    InAllLines(staging, n, l);
    i :| 1 <= i <= n && l in UserLines(staging, i);
    UserMeaning(staging, i, role, res, act, obj);
  }

  lemma LinkSource(staging: string, n: nat, l: string, user: string, role: string) returns (i: nat)
    requires Clean(staging) && l in Split(PolicyText(staging, n), '\n') && Links(l, user, role)
    ensures 1 <= i <= n && role == Role(i) && user == User(i)
  {
    Records(staging, n);
    EmptyLine(role, "", "", "", user);
    InAllLines(staging, n, l);
    i :| 1 <= i <= n && l in UserLines(staging, i);
    UserLinks(staging, i, user, role);
  }

  lemma OwnAllowed(staging: string, n: nat, i: nat, subject: string, res: string, act: string, obj: string)
    requires Clean(staging) && 1 <= i <= n && (subject == User(i) || subject == Role(i))
        && Own(staging, i, res, act, obj)
    ensures Allowed(PolicyText(staging, n), subject, res, act, obj)
  {
    var lines := Split(PolicyText(staging, n), '\n');
    Records(staging, n);
    UserMeaning(staging, i, Role(i), res, act, obj);
    var l :| l in UserLines(staging, i) && Grants(l, Role(i), res, act, obj);
    InAllLines(staging, n, l);
    assert l in lines;
    if subject != Role(i) {
      UserLinks(staging, i, subject, Role(i));
      var m :| m in UserLines(staging, i) && Links(m, subject, Role(i));
      InAllLines(staging, n, m);
      assert m in lines;
    }
  }

  /** Separation: no application and no repository matches the patterns of two users; the slash keeps project 1 apart
      from project 10. */
  lemma Separation(staging: string, i: nat, j: nat, obj: string)
    requires i != j
    ensures !(Project(staging, i) + "/" <= obj && Project(staging, j) + "/" <= obj)
    ensures !(GIT + User(i) + "/" <= obj && GIT + User(j) + "/" <= obj)
  {
    NoTwoPrefixes(staging, i, j, obj);
    NoTwoPrefixes(GIT + "user", i, j, obj);
    assert GIT + User(i) == GIT + "user" + Dec(i) && GIT + User(j) == GIT + "user" + Dec(j);
  }

  lemma NoTwoPrefixes(base: string, i: nat, j: nat, obj: string)
    requires i != j
    ensures !(base + Dec(i) + "/" <= obj && base + Dec(j) + "/" <= obj)
  {
    var a, b := base + Dec(i) + "/", base + Dec(j) + "/";
    DecDigits(i);
    DecDigits(j);
    UndecDec(i);
    UndecDec(j);
    if a <= obj && b <= obj {
      var x, y := obj[|a|..], obj[|b|..];
      assert obj == a + x == b + y;
      assert obj[|base|..] == Dec(i) + ['/'] + x;
      assert obj[|base|..] == Dec(j) + ['/'] + y;
      DigitsThenMark(Dec(i), Dec(j), '/', x, y);
      assert false;
    }
  }

  /** So a user reaches an application exactly when it lies in the user's own project. */
  lemma OwnProjectOnly(staging: string, n: nat, i: nat, act: string, obj: string)
    requires Clean(staging) && 1 <= i <= n
    ensures Allowed(PolicyText(staging, n), User(i), "applications", act, obj) <==> Project(staging, i) + "/" <= obj
  {
    PolicyMeaning(staging, n, User(i), "applications", act, obj);
    forall j: nat ensures User(i) == User(j) ==> i == j { RolesDistinct(i, j); }
    forall j: nat ensures User(i) != Role(j) { RolesDistinct(i, j); }
  }
}
