/** The recurring call patterns of the reconcilers, as functions on the world; module Calls has the methods. */
module Steps {
  import opened World
  import Strings = Text

  /** How a stage ends. Requeue and Failed both end the pass; Hung marks a loop that never ends. */
  datatype Result = Done | Requeue | Failed | Hung

  datatype Answer = Answer(w: World, r: Result)

  /* ---------- Create unless it exists ---------- */

  function EnsureKey(w: World, k: Key, o: Obj): Answer {
    var c := DoCreate(w, k, o);
    Answer(c.w, if c.out == Ok || c.out == AlreadyExists then Done else Failed)
  }

  /* ---------- Create, or update when different ---------- */

  /** Same: reflect.DeepEqual of the compared field. Within: IsIntersectMap against the stored data. Merged:
      IsIntersectMap against StringData, which always reads back empty and merges on write. */
  datatype Rule = Same | Within | Merged

  predicate Fresh(rule: Rule, want: Obj, have: Obj) {
    match rule
    case Same => want == have
    case Within => want.Table? && have.Table? && Strings.Contained(want.data, have.data)
    case Merged => want.Table? && Strings.Contained(want.data, map[])
  }

  function Overwrite(rule: Rule, want: Obj, have: Obj): Obj {
    if rule.Merged? && want.Table? && have.Table? then Table(have.data + want.data) else want
  }

  /** What a completed create-or-update leaves behind. */
  function Effective(rule: Rule, want: Obj, store: map<Key, Obj>, k: Key): Obj {
    if k !in store then want
    else if Fresh(rule, want, store[k]) then store[k]
    else Overwrite(rule, want, store[k])
  }

  function SyncKey(w: World, k: Key, o: Obj, rule: Rule): Answer {
    var c := DoCreate(w, k, o);
    if c.out == Ok then Answer(c.w, Done)
    else if c.out != AlreadyExists then Answer(c.w, Failed)
    else
      var g := DoGet(c.w, k);
      if g.out != Ok || k !in g.w.store then Answer(g.w, Failed)
      else if Fresh(rule, o, g.w.store[k]) then Answer(g.w, Done)
      else
        var u := DoUpdate(g.w, k, Overwrite(rule, o, g.w.store[k]));
        Answer(u.w, if u.out == Ok then Done else Failed)
  }

  /* ---------- Delete ---------- */

  function RemoveKey(w: World, k: Key): Answer {
    var d := DoDelete(w, k);
    Answer(d.w, if d.out == Ok then Done else Failed)
  }

  /** Delete only what a preceding Get finds. */
  function DropKey(w: World, k: Key): Answer {
    var g := DoGet(w, k);
    if g.out == Ok then RemoveKey(g.w, k) else Answer(g.w, Done)
  }

  /* ---------- Copying a security context ---------- */

  function WithUser(o: Obj, user: string): Obj {
    var users := if o.Names? then o.items else [];
    Names(if user in users then users else users + [user])
  }

  /** Without the target, copy the source and add the user; without the source as well, the update of a nameless
      object fails. An existing target is left as it is. */
  function CloneKey(w: World, k: Key, source: Key, user: string): Answer {
    var g := DoGet(w, k);
    if g.out == Ok then Answer(g.w, Done)
    else
      var s := DoGet(g.w, source);
      if s.out == Ok && source in s.w.store then EnsureKey(s.w, k, WithUser(s.w.store[source], user))
      else Answer(DoRefusedUpdate(s.w, Key(SecurityContextConstraints, "", "")).w, Failed)
  }

  /* ---------- Calls into code outside the model ---------- */

  function Foreign(w: World, name: string): Answer {
    var g := DoWatch(w, Key(Workshop, "", name));
    Answer(g.w, if g.out == Ok then Done else Failed)
  }

}
