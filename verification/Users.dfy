/** The user stage: removal of listed users that are no longer wanted, addition of those not listed, and the secret.
    */
module UserStage {
  import opened World
  import opened Cluster
  import opened Steps
  import opened Plans
  import opened Calls
  import opened Htpasswd
  import opened Strings = Text

  const INFRA := "workshop-infra"
  const PROVIDER := "htpass-workshop-users:"

  /* ---------- The four objects of a user ---------- */

  function Binding(name: string): Key {
    Key(RoleBinding, INFRA, name)
  }

  function IdentityKey(name: string): Key {
    Key(Identity, "", PROVIDER + name)
  }

  function MappingKey(name: string): Key {
    Key(UserIdentityMapping, "", PROVIDER + name)
  }

  function AddBlock(name: string): Plan {
    [EnsureStep(UserKey(name), Account(true)),
     EnsureStep(Binding(name), Names([name])),
     PeekStep(UserKey(name)),
     EnsureStep(IdentityKey(name), Bare),
     EnsureStep(MappingKey(name), Bare)]
  }

  function RemoveBlock(name: string): Plan {
    [PeekStep(UserKey(name)),
     RemoveStep(MappingKey(name)),
     RemoveStep(IdentityKey(name)),
     RemoveStep(Binding(name)),
     RemoveStep(UserKey(name))]
  }

  method AddUser(c: Client, username: string) returns (r: Result)
    modifies c
    ensures Answer(c.State(), r) == Run(AddBlock(username), 0, old(c.State()))
  {
    hide Do;
    ghost var p, goal := AddBlock(username), Run(AddBlock(username), 0, c.State());
    r := Ensure(c, UserKey(username), Account(true));
    if r != Done { return; }
    assert goal == Run(p, 1, c.State());
    r := Ensure(c, Key(RoleBinding, INFRA, username), Names([username]));
    if r != Done { return; }
    assert goal == Run(p, 2, c.State());
    Peek(c, UserKey(username));
    assert goal == Run(p, 3, c.State());
    r := Ensure(c, Key(Identity, "", PROVIDER + username), Bare);
    if r != Done { return; }
    assert goal == Run(p, 4, c.State());
    r := Ensure(c, Key(UserIdentityMapping, "", PROVIDER + username), Bare);
  }

  /** A Get whose failure is only logged. */
  method Peek(c: Client, k: Key)
    modifies c
    ensures Answer(c.State(), Done) == Do(PeekStep(k), old(c.State()))
  {
    var _ := c.Get(k);
  }

  method DeleteOpenshiftUser(c: Client, username: string) returns (r: Result)
    modifies c
    ensures Answer(c.State(), r) == Run(RemoveBlock(username), 0, old(c.State()))
  {
    hide Do;
    ghost var p, goal := RemoveBlock(username), Run(RemoveBlock(username), 0, c.State());
    Peek(c, UserKey(username));
    assert goal == Run(p, 1, c.State());
    r := Remove(c, Key(UserIdentityMapping, "", PROVIDER + username));
    if r != Done { return; }
    assert goal == Run(p, 2, c.State());
    r := Remove(c, Key(Identity, "", PROVIDER + username));
    if r != Done { return; }
    assert goal == Run(p, 3, c.State());
    r := Remove(c, Key(RoleBinding, INFRA, username));
    if r != Done { return; }
    assert goal == Run(p, 4, c.State());
    r := Remove(c, UserKey(username));
  }

  /* ---------- createUserHtpasswd ---------- */

  method CreateUserHtpasswd(c: Client, prefix: string, total: int, users: set<string>, hash: string -> string)
    returns (r: Result, ghost order: seq<string>)
    modifies c
    ensures Ordering(order, users)
    ensures Answer(c.State(), r) == Do(SecretFile(File(order, hash), total, prefix), old(c.State()))
  {
    var createUsers := InSomeOrder(users);
    order := createUsers;
    var htpasswds := "";
    for i := 0 to |createUsers|
      invariant htpasswds == File(createUsers[..i], hash)
      invariant c.State() == old(c.State())
    {
      FileSnoc(createUsers[..i], createUsers[i], hash);
      assert createUsers[..i + 1] == createUsers[..i] + [createUsers[i]];
      htpasswds := htpasswds + (createUsers[i] + ":" + hash(createUsers[i])) + "\n";
    }
    assert createUsers[..|createUsers|] == createUsers;
    assert htpasswds == File(order, hash);
    var out := c.Create(SECRET, Text(htpasswds));
    if out == Ok {
      r := Done;
      return;
    }
    if out != AlreadyExists {
      r := Failed;
      return;
    }
    out := c.Get(SECRET);
    if out == Ok && SECRET in c.store {
      var countUsers := Occurrences(c.store[SECRET], prefix);
      if total > countUsers || total < countUsers {
        out := c.Delete(SECRET);
        if out != Ok {
          r := Failed;
          return;
        }
        out := c.Create(SECRET, Text(htpasswds));
        r := if out == Ok || out == AlreadyExists then Done else Failed;
        return;
      }
    }
    r := Done;
  }

  /* ---------- reconcileUser ---------- */

  /** One removal per listed user that is not wanted, in list order. */
  function Removals(items: seq<string>, wanted: set<string>): seq<Plan> {
    seq(|items|, i requires 0 <= i < |items| => if items[i] in wanted then [] else RemoveBlock(items[i]))
  }

  /** One addition per wanted user that is not listed, in the iteration order of the map. */
  function Additions(order: seq<string>, items: seq<string>): seq<Plan> {
    seq(|order|, i requires 0 <= i < |order| => if order[i] in items then [] else AddBlock(order[i]))
  }

  /** Everything the pass chooses freely: list order, two map iteration orders, the hashes of the htpasswd command. */
  datatype Choice = Choice(items: seq<string>, order: seq<string>, lines: seq<string>, hash: string -> string)

  ghost function Rest(spec: Spec, ch: Choice): Plan {
    Flat(Additions(ch.order, ch.items), 0) + [SecretFile(File(ch.lines, ch.hash), spec.users, spec.prefix)]
  }

  ghost function UserPlan(spec: Spec, ch: Choice): Plan {
    Flat(Removals(ch.items, Wanted(spec.prefix, spec.users)), 0) + Rest(spec, ch)
  }

  /** A failed list is logged and read as an empty one. */
  ghost function Stage(spec: Spec, ch: Choice, w: World): Answer {
    Run(UserPlan(spec, ch), 0, DoList(w).w)
  }

  ghost predicate Listed(items: seq<string>, l: Reply) {
    if l.out == Ok then Ordering(items, Managed(l.w.store)) else items == []
  }

  /** The choices are possible ones for a stage that starts in this world. */
  ghost predicate Possible(spec: Spec, ch: Choice, w: World) {
    && Listed(ch.items, DoList(w))
    && Ordering(ch.order, Wanted(spec.prefix, spec.users))
    && Ordering(ch.lines, Wanted(spec.prefix, spec.users))
  }

  method WantedUsers(prefix: string, total: int) returns (createUsers: map<string, bool>)
    ensures createUsers.Keys == Wanted(prefix, total) && forall n :: n in createUsers ==> createUsers[n]
  {
    createUsers := map[];
    var userSuffix := 1;
    while userSuffix <= total
      invariant userSuffix == 1 || 1 < userSuffix <= total + 1
      invariant createUsers.Keys == Wanted(prefix, userSuffix - 1)
      invariant forall n :: n in createUsers ==> createUsers[n]
    {
      var userName := prefix + Dec(userSuffix);
      assert Wanted(prefix, userSuffix) == Wanted(prefix, userSuffix - 1) + {Name(prefix, userSuffix)};
      createUsers := createUsers[userName := true];
      userSuffix := userSuffix + 1;
    }
    assert Wanted(prefix, userSuffix - 1) == Wanted(prefix, total);
  }

  /** How a stage ends whose removals end early. */
  lemma EarlyEnd(spec: Spec, ch: Choice, w: World)
    requires Run(Flat(Removals(ch.items, Wanted(spec.prefix, spec.users)), 0), 0, DoList(w).w).r != Done
    ensures Stage(spec, ch, w) == Run(Flat(Removals(ch.items, Wanted(spec.prefix, spec.users)), 0), 0, DoList(w).w)
  {
    RunConcat(Flat(Removals(ch.items, Wanted(spec.prefix, spec.users)), 0), Rest(spec, ch), 0, DoList(w).w);
  }

  /** How a stage ends whose removals are done, in terms of its additions. */
  lemma AfterRemovals(spec: Spec, ch: Choice, w: World, v: World)
    requires Run(Flat(Removals(ch.items, Wanted(spec.prefix, spec.users)), 0), 0, DoList(w).w) == Answer(v, Done)
    ensures var a := Run(Flat(Additions(ch.order, ch.items), 0), 0, v);
            Stage(spec, ch, w) ==
            if a.r == Done then Do(SecretFile(File(ch.lines, ch.hash), spec.users, spec.prefix), a.w) else a
  {
    RunConcat(Flat(Removals(ch.items, Wanted(spec.prefix, spec.users)), 0), Rest(spec, ch), 0, DoList(w).w);
    var last := [SecretFile(File(ch.lines, ch.hash), spec.users, spec.prefix)];
    RunConcat(Flat(Additions(ch.order, ch.items), 0), last, 0, v);
    var a := Run(Flat(Additions(ch.order, ch.items), 0), 0, v);
    var d := Do(last[0], a.w);
    assert Run(last, 1, d.w) == Answer(d.w, Done);
  }

  method RemoveStale(c: Client, items: seq<string>, wanted: map<string, bool>)
    returns (r: Result, createUsers: map<string, bool>)
    requires forall n :: n in wanted ==> wanted[n]
    modifies c
    ensures Answer(c.State(), r) == Run(Flat(Removals(items, wanted.Keys), 0), 0, old(c.State()))
    ensures createUsers.Keys == wanted.Keys
    ensures r == Done ==> forall n :: n in wanted ==> (createUsers[n] <==> n !in items)
  {
    hide Do, Run, RemoveBlock;
    ghost var blocks := Removals(items, wanted.Keys);
    ghost var goal := Run(Flat(blocks, 0), 0, c.State());
    createUsers := wanted;
    r := Done;
    for i := 0 to |items|
      invariant createUsers.Keys == wanted.Keys && r == Done
      invariant forall n :: n in wanted ==> (createUsers[n] <==> n !in items[..i])
      invariant Run(Flat(blocks, i), 0, c.State()) == goal
    {
      RunConcat(blocks[i], Flat(blocks, i + 1), 0, c.State());
      var username := items[i];
      if username in createUsers {
        createUsers := createUsers[username := false];
        Nothing(c.State());
      } else {
        r := DeleteOpenshiftUser(c, username);
        if r != Done { return; }
      }
    }
    assert items[..|items|] == items;
    Nothing(c.State());
  }

  lemma Nothing(w: World)
    ensures Run([], 0, w) == Answer(w, Done)
  {
  }

  method AddMissing(c: Client, items: seq<string>, createUsers: map<string, bool>)
    returns (r: Result, ghost order: seq<string>)
    requires forall n :: n in createUsers ==> (createUsers[n] <==> n !in items)
    modifies c
    ensures Ordering(order, createUsers.Keys)
    ensures Answer(c.State(), r) == Run(Flat(Additions(order, items), 0), 0, old(c.State()))
  {
    hide Do, Run, AddBlock;
    var usernames := InSomeOrder(createUsers.Keys);
    order := usernames;
    ghost var blocks := Additions(order, items);
    ghost var goal := Run(Flat(blocks, 0), 0, c.State());
    r := Done;
    for i := 0 to |usernames|
      invariant r == Done && Run(Flat(blocks, i), 0, c.State()) == goal
    {
      RunConcat(blocks[i], Flat(blocks, i + 1), 0, c.State());
      if createUsers[usernames[i]] {
        r := AddUser(c, usernames[i]);
        if r != Done { return; }
      } else {
        Nothing(c.State());
      }
    }
    Nothing(c.State());
  }

  method ReconcileUser(c: Client, spec: Spec, hash: string -> string) returns (r: Result, ghost ch: Choice)
    modifies c
    ensures ch.hash == hash && Possible(spec, ch, old(c.State()))
    ensures Answer(c.State(), r) == Stage(spec, ch, old(c.State()))
  {
    hide Do, Run, Flat, File, DoList, Removals, Additions, Stage;
    ghost var start, names := c.State(), Wanted(spec.prefix, spec.users);
    ghost var some := SomeOrder(names);
    var createUsers := WantedUsers(spec.prefix, spec.users);
    var out, items := c.ListUsers();
    ch := Choice(items, some, some, hash);
    r, createUsers := RemoveStale(c, items, createUsers);
    if r != Done {
      EarlyEnd(spec, ch, start);
      return;
    }
    ghost var v := c.State();
    ghost var order;
    r, order := AddMissing(c, items, createUsers);
    ch := Choice(items, order, some, hash);
    if r == Done {
      ghost var lines;
      r, lines := CreateUserHtpasswd(c, spec.prefix, spec.users, createUsers.Keys, hash);
      ch := Choice(items, order, lines, hash);
    }
    AfterRemovals(spec, ch, start, v);
  }

  /* ---------- deleteUsers ---------- */

  function AllRemovals(items: seq<string>): seq<Plan> {
    seq(|items|, i requires 0 <= i < |items| => RemoveBlock(items[i]))
  }

  function DeletePlan(items: seq<string>): Plan {
    Flat(AllRemovals(items), 0) + [RemoveStep(SECRET)]
  }

  method DeleteUsers(c: Client) returns (r: Result, ghost listed: seq<string>)
    modifies c
    ensures Listed(listed, DoList(old(c.State())))
    ensures Answer(c.State(), r) == Run(DeletePlan(listed), 0, DoList(old(c.State())).w)
  {
    hide Do, Run, RemoveBlock, DoList;
    var out, items := c.ListUsers();
    listed := items;
    ghost var blocks, tail := AllRemovals(items), [RemoveStep(SECRET)];
    ghost var goal := Run(DeletePlan(items), 0, c.State());
    r := Done;
    for i := 0 to |items|
      invariant r == Done && Run(Flat(blocks, i) + tail, 0, c.State()) == goal
    {
      RunBlock(blocks, tail, i, c.State());
      r := DeleteOpenshiftUser(c, items[i]);
      if r != Done { return; }
    }
    assert Flat(blocks, |items|) + tail == tail;
    OneStep(RemoveStep(SECRET), c.State());
    r := Remove(c, SECRET);
  }

  lemma OneStep(s: Step, w: World)
    ensures Run([s], 0, w) == Do(s, w)
  {
    hide Do;
    var a := Do(s, w);
    assert Run([s], 1, a.w) == Answer(a.w, Done);
  }
}
