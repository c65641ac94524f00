/** The htpasswd secret, whose freshness is judged by counting the user prefix in the stored file. */
module Htpasswd {
  import opened World
  import opened Steps
  import opened Strings = Text

  const SECRET := Key(Secret, "openshift-config", "htpass-workshop-users")

  /* ---------- The file ---------- */

  /** One entry per user, with whatever hash the htpasswd command produced for it in this pass. */
  function Line(name: string, hash: string -> string): string {
    name + ":" + hash(name)
  }

  function File(names: seq<string>, hash: string -> string): string {
    if names == [] then "" else Line(names[0], hash) + "\n" + File(names[1..], hash)
  }

  lemma {:induction false} FileSnoc(names: seq<string>, name: string, hash: string -> string)
    ensures File(names + [name], hash) == File(names, hash) + Line(name, hash) + "\n"
  {
    var all := names + [name];
    if names == [] {
      assert all[1..] == [];
    } else {
      FileSnoc(names[1..], name, hash);
      assert all[1..] == names[1..] + [name];
      assert File(all, hash) == Line(names[0], hash) + "\n" + (File(names[1..], hash) + Line(name, hash) + "\n");
    }
  }

  /** The users a file names: what precedes the colon on each non-empty line. */
  function NamesIn(lines: seq<string>): seq<string> {
    if lines == [] then []
    else (if lines[0] == "" then [] else [Split(lines[0], ':')[0]]) + NamesIn(lines[1..])
  }

  function FileNames(text: string): seq<string> {
    NamesIn(Split(text, '\n'))
  }

  ghost predicate PlainNames(names: seq<string>, hash: string -> string) {
    forall n :: n in names ==> ':' !in n && '\n' !in n && '\n' !in hash(n)
  }

  lemma {:induction false} FileRoundTrip(names: seq<string>, hash: string -> string)
    requires PlainNames(names, hash)
    ensures FileNames(File(names, hash)) == names
  {
    if names != [] {
      var n := names[0];
      assert forall m :: m in names[1..] ==> m in names;
      FileRoundTrip(names[1..], hash);
      SplitHead(Line(n, hash), '\n', File(names[1..], hash));
      assert File(names, hash) == Line(n, hash) + ['\n'] + File(names[1..], hash);
      SplitHead(n, ':', hash(n));
      assert Line(n, hash) == n + [':'] + hash(n);
      var lines := Split(File(names, hash), '\n');
      assert lines[1..] == Split(File(names[1..], hash), '\n');
    }
  }

  /** The file has one line per user, the name and what the htpasswd command produced for it, and nothing behind. */
  lemma {:induction false} FileLines(names: seq<string>, hash: string -> string)
    requires PlainNames(names, hash)
    ensures var lines := Split(File(names, hash), '\n');
            && |lines| == |names| + 1 && lines[|names|] == ""
            && forall i :: 0 <= i < |names| ==> lines[i] == names[i] + ":" + hash(names[i])
  {
    if names != [] {
      var n := names[0];
      assert forall m :: m in names[1..] ==> m in names;
      FileLines(names[1..], hash);
      SplitHead(Line(n, hash), '\n', File(names[1..], hash));
      assert File(names, hash) == Line(n, hash) + ['\n'] + File(names[1..], hash);
    }
  }

  /* ---------- Counting ---------- */

  function Total(names: seq<string>, hash: string -> string, prefix: string): nat {
    if names == [] then 0 else Count(Line(names[0], hash), prefix) + Total(names[1..], hash, prefix)
  }

  lemma {:induction false} CountFile(names: seq<string>, hash: string -> string, prefix: string)
    requires prefix != "" && '\n' !in prefix
    ensures Count(File(names, hash), prefix) == Total(names, hash, prefix)
  {
    if names != [] {
      CountFile(names[1..], hash, prefix);
      CountLine(Line(names[0], hash), File(names[1..], hash), prefix);
    }
  }

  lemma {:induction false} TotalAtLeast(names: seq<string>, hash: string -> string, prefix: string)
    requires prefix != ""
    requires forall n :: n in names ==> prefix <= n
    ensures Total(names, hash, prefix) >= |names|
    ensures Total(names, hash, prefix) == |names| <==> forall n :: n in names ==> Count(Line(n, hash), prefix) == 1
  {
    if names != [] {
      var n := names[0];
      assert forall m :: m in names[1..] ==> m in names;
      TotalAtLeast(names[1..], hash, prefix);
      assert n in names;
      assert prefix <= n <= Line(n, hash);
      assert names == [n] + names[1..];
    }
  }

  /** Counting stands in for counting users exactly when the prefix occurs once in every line. */
  lemma CountStandsIn(names: seq<string>, hash: string -> string, prefix: string)
    requires prefix != "" && '\n' !in prefix
    requires forall n :: n in names ==> prefix <= n
    ensures Count(File(names, hash), prefix) == |names|
        <==> forall n :: n in names ==> Count(Line(n, hash), prefix) == 1
  {
    CountFile(names, hash, prefix);
    TotalAtLeast(names, hash, prefix);
  }

  /* ---------- The desired users ---------- */

  function Name(prefix: string, id: nat): string {
    prefix + Dec(id)
  }

  /** prefix1 .. prefixN; nobody when the number is zero or negative. */
  ghost function Wanted(prefix: string, total: int): set<string> {
    set id: nat | 1 <= id <= total :: Name(prefix, id)
  }

  lemma {:induction false} WantedSize(prefix: string, total: int)
    ensures |Wanted(prefix, total)| == if total < 0 then 0 else total
  {
    if total > 0 {
      WantedSize(prefix, total - 1);
      forall id: nat | id < total ensures Name(prefix, id) != Name(prefix, total) {
        NumberedInjective(prefix, id, total);
      }
      assert Name(prefix, total) !in Wanted(prefix, total - 1);
      assert Wanted(prefix, total) == Wanted(prefix, total - 1) + {Name(prefix, total)};
    }
  }

  lemma WantedPlain(prefix: string, total: int)
    requires ':' !in prefix && '\n' !in prefix
    ensures forall n :: n in Wanted(prefix, total) ==> ':' !in n && '\n' !in n && prefix <= n
  {
    forall n | n in Wanted(prefix, total) ensures ':' !in n && '\n' !in n && prefix <= n {
      var id: nat :| 1 <= id <= total && n == Name(prefix, id);
      DecDigits(id);
    }
  }

  /* ---------- createUserHtpasswd ---------- */

  function Occurrences(o: Obj, prefix: string): nat {
    if o.Text? then Count(o.text, prefix) else 0
  }

  function SecretStep(w: World, text: string, total: int, prefix: string): Answer {
    var c := DoCreate(w, SECRET, Text(text));
    if c.out == Ok then Answer(c.w, Done)
    else if c.out != AlreadyExists then Answer(c.w, Failed)
    else
      var g := DoGet(c.w, SECRET);
      if g.out != Ok || SECRET !in g.w.store || Occurrences(g.w.store[SECRET], prefix) == total then Answer(g.w, Done)
      else
        var d := DoDelete(g.w, SECRET);
        if d.out != Ok then Answer(d.w, Failed) else EnsureKey(d.w, SECRET, Text(text))
  }

  /** The stored file names prefix1 .. prefixM for some M, and counting the prefix yields M. */
  ghost predicate SoundSecret(store: map<Key, Obj>, prefix: string) {
    SECRET in store ==>
      store[SECRET].Text? &&
      exists m: nat ::
        Count(store[SECRET].text, prefix) == m && Ordering(FileNames(store[SECRET].text), Wanted(prefix, m))
  }

  ghost predicate NamesExactly(store: map<Key, Obj>, prefix: string, total: int) {
    SECRET in store && store[SECRET].Text? && Ordering(FileNames(store[SECRET].text), Wanted(prefix, total))
  }

  /** The condition under which the names can be read back from the file. */
  ghost predicate Readable(prefix: string, total: int, hash: string -> string) {
    ':' !in prefix && '\n' !in prefix && forall n :: n in Wanted(prefix, total) ==> '\n' !in hash(n)
  }

  /** The condition under which the count is right as well: a prefix, and hashes in which it does not recur. */
  ghost predicate GoodHash(prefix: string, total: int, hash: string -> string) {
    && Readable(prefix, total, hash) && prefix != ""
    && forall n :: n in Wanted(prefix, total) ==> Count(Line(n, hash), prefix) == 1
  }

  lemma FreshFile(order: seq<string>, prefix: string, total: int, hash: string -> string)
    requires Ordering(order, Wanted(prefix, total)) && GoodHash(prefix, total, hash)
    ensures var text := File(order, hash);
            FileNames(text) == order && Count(text, prefix) == if total < 0 then 0 else total
  {
    WantedPlain(prefix, total);
    FileRoundTrip(order, hash);
    CountStandsIn(order, hash, prefix);
    OrderingSize(order, Wanted(prefix, total));
    WantedSize(prefix, total);
  }

  /** One run of the secret step. Under any faults a sound secret stays sound, also between the delete and the
      re-create; without faults it ends up naming exactly the desired users. */
  lemma SecretStepSound(w: World, order: seq<string>, prefix: string, total: int, hash: string -> string)
    requires SoundSecret(w.store, prefix)
    requires Ordering(order, Wanted(prefix, total)) && GoodHash(prefix, total, hash)
    ensures var a := SecretStep(w, File(order, hash), total, prefix);
            SoundSecret(a.w.store, prefix) && (Calm(w) ==> a.r == Done && NamesExactly(a.w.store, prefix, total))
  {
    var text := File(order, hash);
    FreshFile(order, prefix, total, hash);
    var n: nat := if total < 0 then 0 else total;
    assert Wanted(prefix, n) == Wanted(prefix, total);
    assert SoundSecret(w.store[SECRET := Text(text)], prefix) by {
      assert Count(text, prefix) == n && Ordering(FileNames(text), Wanted(prefix, n));
    }
    var c := DoCreate(w, SECRET, Text(text));
    CreateFacts(w, SECRET, Text(text));
    if c.out == AlreadyExists {
      var g := DoGet(c.w, SECRET);
      GetFacts(c.w, SECRET);
      if g.out == Ok && Occurrences(g.w.store[SECRET], prefix) != total {
        var d := DoDelete(g.w, SECRET);
        DeleteFacts(g.w, SECRET);
        CreateFacts(d.w, SECRET, Text(text));
      }
    }
  }

  /** Without faults the step replaces the file exactly when the count differs from the number of users. */
  lemma SecretKeptExactly(w: World, text: string, total: int, prefix: string)
    requires Calm(w) && SECRET in w.store
    ensures var a := SecretStep(w, text, total, prefix);
            a.r == Done && a.w.store == (if Occurrences(w.store[SECRET], prefix) == total then w.store
                                         else w.store[SECRET := Text(text)])
  {
    var c := DoCreate(w, SECRET, Text(text));
    CreateFacts(w, SECRET, Text(text));
    var g := DoGet(c.w, SECRET);
    GetFacts(c.w, SECRET);
    if Occurrences(g.w.store[SECRET], prefix) != total {
      var d := DoDelete(g.w, SECRET);
      DeleteFacts(g.w, SECRET);
      CreateFacts(d.w, SECRET, Text(text));
      assert (w.store - {SECRET})[SECRET := Text(text)] == w.store[SECRET := Text(text)];
    }
  }

  /** The file is written: there was none, or the count differs. */
  ghost predicate Refreshed(store: map<Key, Obj>, prefix: string, total: int) {
    SECRET !in store || Occurrences(store[SECRET], prefix) != total
  }

  lemma SecretReplaced(w: World, text: string, total: int, prefix: string)
    requires Calm(w)
    ensures SecretStep(w, text, total, prefix).w.store ==
            if Refreshed(w.store, prefix, total) then w.store[SECRET := Text(text)] else w.store
  {
    if SECRET in w.store {
      SecretKeptExactly(w, text, total, prefix);
    } else {
      CreateFacts(w, SECRET, Text(text));
    }
  }

  /** Exactly when a fault-free step leaves the wanted names: the file was written, or it named them already. */
  lemma SecretNamesWhen(w: World, order: seq<string>, prefix: string, total: int, hash: string -> string)
    requires Calm(w) && Ordering(order, Wanted(prefix, total)) && Readable(prefix, total, hash)
    ensures NamesExactly(SecretStep(w, File(order, hash), total, prefix).w.store, prefix, total) <==>
            Refreshed(w.store, prefix, total) || NamesExactly(w.store, prefix, total)
  {
    SecretReplaced(w, File(order, hash), total, prefix);
    WantedPlain(prefix, total);
    FileRoundTrip(order, hash);
    hide SecretStep, File;
  }

  lemma OneUser(hash: string -> string)
    requires hash("user1") == "x"
    ensures FileNames(File(["user1"], hash)) == ["user1"] && Count(File(["user1"], hash), "use") == 1
  {
    FileRoundTrip(["user1"], hash);
    CountFile(["user1"], hash, "use");
    var l := "user1:x";
    assert Line("user1", hash) == l;
    assert Count(l, "use") == 1 by {
      assert l[3..] == "r1:x";
      assert "r1:x"[1..] == "1:x" && "1:x"[1..] == ":x";
    }
    assert ["user1"][1..] == [];
    assert Total(["user1"], hash, "use") == 1;
  }
}
