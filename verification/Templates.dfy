/** What holds of template application: scopes, single application, and writing a template out in place. */
module Templates {
  import opened Options
  import opened Evaluator

  // ------------------------------------------------------------------- arguments

  /** The `i`-th argument: the one given, or the default. */
  function Argument(defs: seq<ArgDef>, args: seq<seq<Token>>, i: nat): seq<Token>
    requires i < |defs|
  {
    if i < |args| then args[i] else defs[i].default
  }

  /** The text a body sees for it, which is nothing if it cannot be made. */
  function ArgValue(env: Scope, defs: seq<ArgDef>, args: seq<seq<Token>>, i: nat): string
    requires i < |defs|
  {
    var a := Expand(env, Argument(defs, args, i));
    if a.Made? then a.text else ""
  }

  lemma {:induction false} BoundNames(env: Scope, defs: seq<ArgDef>, args: seq<seq<Token>>, n: nat, k: string)
    requires n <= |defs| && BindArgs(env, defs, args, n).Some?
    ensures k in BindArgs(env, defs, args, n).value <==> exists i :: 0 <= i < n && defs[i].name == k
    decreases n
  {
    if n > 0 {
      BoundNames(env, defs, args, n - 1, k);
      if k == defs[n - 1].name { assert defs[n - 1].name == k; }
    }
  }

  /** Arguments and defaults take their values from where the template is applied; the last of a name counts. */
  lemma {:induction false} BoundValue(env: Scope, defs: seq<ArgDef>, args: seq<seq<Token>>, n: nat, i: nat)
    requires i < n <= |defs| && BindArgs(env, defs, args, n).Some?
    requires forall j :: i < j < n ==> defs[j].name != defs[i].name
    ensures defs[i].name in BindArgs(env, defs, args, n).value
    ensures BindArgs(env, defs, args, n).value[defs[i].name] == ArgValue(env, defs, args, i)
    decreases n
  {
    if i < n - 1 { BoundValue(env, defs, args, n - 1, i); }
  }

  /** Only an argument that ends the daemon keeps them from being bound. */
  lemma {:induction false} BoundIff(env: Scope, defs: seq<ArgDef>, args: seq<seq<Token>>, n: nat)
    requires n <= |defs|
    ensures BindArgs(env, defs, args, n).None? <==>
            exists i :: 0 <= i < n && Expand(env, Argument(defs, args, i)).Died?
    decreases n
  {
    if n > 0 {
      BoundIff(env, defs, args, n - 1);
      if Expand(env, Argument(defs, args, n - 1)).Died? { assert BindArgs(env, defs, args, n).None?; }
    }
  }

  // ------------------------------------------------------ one application at most

  /** The target names template `t`, which has not been applied, and its arguments can be evaluated. */
  predicate Resolves(c: Context, target: Target, st: State, t: nat) {
    && !st.died
    && var env := Visible(st.vars);
       var name := Expand(env, target.name);
       && name.Made? && Find(c.templates, name.text) == Some(t) && t !in st.applied
       && BindArgs(env, c.templates[t].argdefs, target.args, |c.templates[t].argdefs|).Some?
  }

  /** Where the body is evaluated. */
  function Entered(c: Context, target: Target, st: State, t: nat): State
    requires Resolves(c, target, st, t)
  {
    var defs := c.templates[t].argdefs;
    var args := BindArgs(Visible(st.vars), defs, target.args, |defs|).value;
    st.(applied := st.applied + [t], vars := st.vars.(args := args), scoped := true)
  }

  lemma EnteredMarks(c: Context, target: Target, st: State, t: nat)
    requires Marks(c, st.applied) && Resolves(c, target, st, t)
    ensures Marks(c, Entered(c, target, st, t).applied)
    ensures ApplyOne(c, target, st) ==
            var r := EvalParams(c, c.templates[t].params, Entered(c, target, st, t));
            r.(vars := r.vars.(args := st.vars.args), scoped := st.scoped)
    ensures t in ApplyOne(c, target, st).applied
  {
    var inner := Entered(c, target, st, t);
    var r := EvalParams(c, c.templates[t].params, inner);
    assert inner.applied <= r.applied && r.applied[|st.applied|] == t;
  }

  /** The name ends the daemon, or an argument for a template that is there and not yet applied. */
  ghost predicate ApplyDies(c: Context, target: Target, st: State) {
    var env := Visible(st.vars);
    var name := Expand(env, target.name);
    || name.Died?
    || (name.Made? && var t := Find(c.templates, name.text);
        t.Some? && t.value !in st.applied &&
        var defs := c.templates[t.value].argdefs;
        exists i :: 0 <= i < |defs| && Expand(env, Argument(defs, target.args, i)).Died?)
  }

  /** An application does something exactly when it resolves or ends the daemon. */
  lemma ApplyUnresolved(c: Context, target: Target, st: State)
    requires Marks(c, st.applied) && forall t :: !Resolves(c, target, st, t)
    ensures ApplyOne(c, target, st) == st || ApplyOne(c, target, st) == st.(died := true)
    ensures !st.died ==> (ApplyOne(c, target, st).died <==> ApplyDies(c, target, st))
  {
    var env := Visible(st.vars);
    var name := Expand(env, target.name);
    if !st.died && name.Made? && Find(c.templates, name.text).Some? {
      var t := Find(c.templates, name.text).value;
      assert !Resolves(c, target, st, t);
      BoundIff(env, c.templates[t].argdefs, target.args, |c.templates[t].argdefs|);
    }
  }

  /** A template that was applied, however deep, is not applied again in the same VM. */
  lemma NotTwice(c: Context, first: Target, st: State, t: nat, ps: seq<Param>, again: Target)
    requires Marks(c, st.applied) && Resolves(c, first, st, t)
    ensures var later := EvalParams(c, ps, ApplyOne(c, first, st));
      !later.died && Expand(Visible(later.vars), again.name) == Made(c.templates[t].name)
      ==> ApplyOne(c, again, later) == later
  {
    EnteredMarks(c, first, st, t);
    var later := EvalParams(c, ps, ApplyOne(c, first, st));
    assert ApplyOne(c, first, st).applied <= later.applied;
    assert t in later.applied;
    var name := Expand(Visible(st.vars), first.name).text;
    assert name == c.templates[t].name;
  }

  /** The last value that the assignments give to a name. */
  function LastSet(sets: seq<(string, string)>, k: string): Option<string> {
    if sets == [] then None
    else if sets[|sets| - 1].0 == k then Some(sets[|sets| - 1].1)
    else LastSet(sets[..|sets| - 1], k)
  }

  lemma {:induction false} FoldedAt(scope: Scope, sets: seq<(string, string)>, k: string)
    ensures var v := LastSet(sets, k);
      if v.Some? then k in Folded(scope, sets) && Folded(scope, sets)[k] == v.value
      else (k in Folded(scope, sets) <==> k in scope) && (k in scope ==> Folded(scope, sets)[k] == scope[k])
  {
    if sets != [] { FoldedAt(scope, sets[..|sets| - 1], k); }
  }

  lemma {:induction false} LastOfBoth(a: seq<(string, string)>, b: seq<(string, string)>, k: string)
    ensures LastSet(a + b, k) == if LastSet(b, k).Some? then LastSet(b, k) else LastSet(a, k)
    decreases |b|
  {
    if b == [] {
      assert a + b == a;
    } else {
      assert (a + b)[..|a + b| - 1] == a + b[..|b| - 1];
      LastOfBoth(a, b[..|b| - 1], k);
    }
  }

  /** The assignments made between two states. */
  function NewSets(st: State, r: State): seq<(string, string)>
    requires |st.sets| <= |r.sets|
  {
    r.sets[|st.sets|..]
  }

  /**
   After an application the caller sees, for any name, its own argument of that name; otherwise the
   last value that the body, or a template applied in it, assigned to the name; and otherwise
   what it saw before.
   */
  lemma CallerSees(c: Context, target: Target, st: State, k: string)
    requires Marks(c, st.applied) && Recorded(st)
    ensures var r := ApplyOne(c, target, st);
      && |st.sets| <= |r.sets|
      && GetVar(r.vars, k) == if k in st.vars.args then Some(st.vars.args[k])
                              else if LastSet(NewSets(st, r), k).Some? then LastSet(NewSets(st, r), k)
                              else GetVar(st.vars, k)
  {
    var r := ApplyOne(c, target, st);
    assert Recorded(r);
    var added := NewSets(st, r);
    assert r.sets == st.sets + added;
    LastOfBoth(st.sets, added, k);
    FoldedAt(st.origin, st.sets, k);
    FoldedAt(st.origin, r.sets, k);
  }

  // ------------------------------------------------------------ one after the other

  /** Targets are applied one after the other. */
  lemma ApplyConcat(c: Context, a: seq<Target>, b: seq<Target>, st: State)
    requires Marks(c, st.applied)
    ensures ApplyAll(c, a + b, st) == ApplyAll(c, b, ApplyAll(c, a, st))
  {
    LeadsThrough(c, a, b, st, ApplyAll(c, a, st), ApplyAll(c, b, ApplyAll(c, a, st)));
  }

  /** Applying the targets leads from one state to the other. */
  ghost predicate Leads(c: Context, targets: seq<Target>, st: State, r: State) {
    Marks(c, st.applied) && Marks(c, r.applied) && ApplyAll(c, targets, st) == r
  }

  lemma LeadsOn(c: Context, targets: seq<Target>, last: Target, st: State, mid: State, r: State)
    requires Leads(c, targets, st, mid) && ApplyOne(c, last, mid) == r
    ensures Leads(c, targets + [last], st, r)
  {
    var all := targets + [last];
    assert all[..|all| - 1] == targets && all[|all| - 1] == last;
  }

  lemma LedBy(c: Context, targets: seq<Target>, last: Target, st: State, r: State) returns (mid: State)
    requires Leads(c, targets + [last], st, r)
    ensures Leads(c, targets, st, mid) && ApplyOne(c, last, mid) == r
  {
    var all := targets + [last];
    assert all[..|all| - 1] == targets && all[|all| - 1] == last;
    mid := ApplyAll(c, targets, st);
  }

  lemma {:induction false} LeadsThrough(c: Context, a: seq<Target>, b: seq<Target>, st: State, m: State, r: State)
    requires Leads(c, a, st, m) && Leads(c, b, m, r)
    ensures Leads(c, a + b, st, r)
    decreases |b|, 0
  {
    if b == [] {
      assert a + b == a;
    } else {
      var front, last := b[..|b| - 1], b[|b| - 1];
      assert b == front + [last] && a + b == a + front + [last];
      LeadsLast(c, a, front, last, st, m, r);
    }
  }

  lemma {:induction false} LeadsLast(c: Context, a: seq<Target>, front: seq<Target>, last: Target,
                                     st: State, m: State, r: State)
    requires Leads(c, a, st, m) && Leads(c, front + [last], m, r)
    ensures Leads(c, a + front + [last], st, r)
    decreases |front|, 1
  {
    var mid := LedBy(c, front, last, m, r);
    LeadsThrough(c, a, front, st, m, mid);
    LeadsOn(c, a + front, last, st, mid, r);
  }

  /** A value that its key takes is recorded, and nothing else is; one that it does not take does nothing. */
  lemma GiveRecords(c: Context, key: string, value: string, st: State)
    requires !st.died
    ensures var r := Give(c, key, value, st);
      if !Takes(c, st.log, key, value) then r == st
      else !r.died ==> r.log == st.log + [Given(key, value)]
  {
  }

  /** The user and the group of an owner, at the first colon. */
  lemma {:induction false} SplitMeans(value: string)
    ensures var (user, group) := Split(value);
      && ':' !in user
      && value == (if group.Some? then user + ":" + group.value else user)
  {
    if value != [] && value[0] != ':' { SplitMeans(value[1..]); }
  }

  /** `name` and `owner` also set the variables, outside of templates. */
  lemma GiveSets(c: Context, key: string, value: string, st: State, x: string)
    requires !st.died && !st.scoped && Takes(c, st.log, key, value)
    ensures var r, (user, group) := Give(c, key, value, st), Split(value);
      && !r.died
      && GetVar(r.vars, x) ==
         if key == "name" && x == "NAME" then Some(value)
         else if key == "owner" && x == "OWNER" then Some(user)
         else if key == "owner" && group.Some? && x == "GROUP" then Some(group.value)
         else GetVar(st.vars, x)
  {
    assert "OWNER" != "GROUP" by { assert "OWNER"[0] == 'O'; }
  }

  /** An assignment outside of templates: the name has the text, and nothing else is touched; or it is skipped. */
  lemma AssignSeen(c: Context, k: string, ts: seq<Token>, st: State, x: string)
    requires Marks(c, st.applied) && !st.died && !st.scoped
    ensures var r, text := EvalParams(c, [Assign(k, ts)], st), Expand(Visible(st.vars), ts);
      match text
      case Made(t) =>
        && !r.died && r.log == st.log && r.applied == st.applied
        && GetVar(r.vars, x) == if x == k then Some(t) else GetVar(st.vars, x)
      case Undefined => r == st
      case Died => r.died
  {
    assert [Assign(k, ts)][..0] == [];
  }

  /** A key without a list: each value that can be made and that the key takes is recorded, in order. */
  lemma SetRecords(c: Context, key: string, append: bool, values: seq<seq<Token>>, value: seq<Token>, st: State)
    requires Marks(c, st.applied) && key !in LIST_KEYS
    ensures var before := EvalParam(c, Set(key, append, values), st);
      var r, text := EvalParam(c, Set(key, append, values + [value]), st), Expand(Visible(before.vars), value);
      if before.died then r == before
      else match text
        case Made(t) => r == Give(c, key, t, before)
        case Undefined => r == before
        case Died => r.died
  {
    assert (values + [value])[..|values + [value]| - 1] == values;
  }

  /** Parameters are evaluated one after the other. */
  lemma {:induction false} EvalConcat(c: Context, ps: seq<Param>, qs: seq<Param>, st: State)
    requires Marks(c, st.applied)
    ensures EvalParams(c, ps + qs, st) == EvalParams(c, qs, EvalParams(c, ps, st))
    decreases |qs|
  {
    if qs == [] {
      assert ps + qs == ps;
    } else {
      var front := qs[..|qs| - 1];
      assert (ps + qs)[..|ps + qs| - 1] == ps + front;
      EvalConcat(c, ps, front, st);
    }
  }

  // ------------------------------------------------------------ marks

  /** The state with one more mark, put in at place `n`. */
  function Mark(st: State, t: nat, n: nat): State
    requires n <= |st.applied|
  {
    st.(applied := st.applied[..n] + [t] + st.applied[n..])
  }

  ghost predicate Unused(c: Context, st: State, t: nat, n: nat) {
    Marks(c, st.applied) && n <= |st.applied| && t < |c.templates| && t !in st.applied
  }

  lemma MarkMarks(c: Context, st: State, t: nat, n: nat)
    requires Unused(c, st, t, n)
    ensures Marks(c, Mark(st, t, n).applied)
    ensures forall u :: u in Mark(st, t, n).applied <==> u == t || u in st.applied
  {
    var a, m := st.applied, Mark(st, t, n).applied;
    assert a[..n] + a[n..] == a;
    assert forall u :: u in m <==> u in a[..n] || u == t || u in a[n..];
    assert forall u :: u in a <==> u in a[..n] || u in a[n..];
    InsertDistinct(a, t, n);
    forall i | 0 <= i < |m| ensures m[i] < |c.templates| {
      assert m[i] in m;
    }
  }

  lemma InsertDistinct(a: seq<nat>, t: nat, n: nat)
    requires n <= |a| && t !in a && forall i, j :: 0 <= i < j < |a| ==> a[i] != a[j]
    ensures var m := a[..n] + [t] + a[n..]; forall i, j :: 0 <= i < j < |m| ==> m[i] != m[j]
  {
    var m := a[..n] + [t] + a[n..];
    forall i, j | 0 <= i < j < |m| ensures m[i] != m[j] {
      var i', j' := if i < n then i else i - 1, if j < n then j else j - 1;
      assert i != n ==> m[i] == a[i'];
      assert j != n ==> m[j] == a[j'];
    }
  }

  lemma {:induction false} GiveAllMark(c: Context, key: string, values: seq<seq<Token>>, st: State, t: nat, n: nat)
    requires n <= |st.applied|
    ensures GiveAll(c, key, values, Mark(st, t, n)) == Mark(GiveAll(c, key, values, st), t, n)
  {
    if values != [] {
      var before := GiveAll(c, key, values[..|values| - 1], st);
      GiveAllMark(c, key, values[..|values| - 1], st, t, n);
      var v := Expand(Visible(before.vars), values[|values| - 1]);
      if v.Made? { GiveMark(c, key, v.text, before, t, n); }
    }
  }

  lemma GiveMark(c: Context, key: string, value: string, st: State, t: nat, n: nat)
    requires n <= |st.applied|
    ensures Give(c, key, value, st).applied == st.applied
    ensures Give(c, key, value, Mark(st, t, n)) == Mark(Give(c, key, value, st), t, n)
  {
  }

  /** A mark on a template that is never applied changes nothing. */
  lemma {:induction false} UnusedMark(c: Context, ps: seq<Param>, st: State, t: nat, n: nat)
    requires Unused(c, st, t, n) && t !in EvalParams(c, ps, st).applied && !EvalParams(c, ps, st).died
    ensures Marks(c, Mark(st, t, n).applied)
    ensures EvalParams(c, ps, Mark(st, t, n)) == Mark(EvalParams(c, ps, st), t, n)
    decreases Room(c, st), 3, |ps|
  {
    MarkMarks(c, st, t, n);
    if ps != [] {
      var front := ps[..|ps| - 1];
      var before := EvalParams(c, front, st);
      assert before.applied <= EvalParams(c, ps, st).applied;
      UnusedMark(c, front, st, t, n);
      UnusedMarkParam(c, ps[|ps| - 1], before, t, n);
    }
  }

  lemma {:induction false} UnusedMarkParam(c: Context, p: Param, st: State, t: nat, n: nat)
    requires Unused(c, st, t, n) && t !in EvalParam(c, p, st).applied && !EvalParam(c, p, st).died
    ensures Marks(c, Mark(st, t, n).applied)
    ensures EvalParam(c, p, Mark(st, t, n)) == Mark(EvalParam(c, p, st), t, n)
    decreases Room(c, st), 2, 0
  {
    MarkMarks(c, st, t, n);
    if !st.died {
      match p
      case Assign(_, _) =>
      case Apply(targets) => UnusedMarkTargets(c, targets, st, t, n);
      case Set(key, append, values) =>
        var cleared := if key in LIST_KEYS && !append then st.(log := st.log + [Cleared(key)]) else st;
        GiveAllMark(c, key, values, cleared, t, n);
    }
  }

  lemma {:induction false} UnusedMarkTargets(c: Context, targets: seq<Target>, st: State, t: nat, n: nat)
    requires Unused(c, st, t, n) && t !in ApplyAll(c, targets, st).applied && !ApplyAll(c, targets, st).died
    ensures Marks(c, Mark(st, t, n).applied)
    ensures ApplyAll(c, targets, Mark(st, t, n)) == Mark(ApplyAll(c, targets, st), t, n)
    decreases Room(c, st), 1, |targets|
  {
    MarkMarks(c, st, t, n);
    if targets != [] {
      var front := targets[..|targets| - 1];
      var before := ApplyAll(c, front, st);
      assert before.applied <= ApplyAll(c, targets, st).applied;
      UnusedMarkTargets(c, front, st, t, n);
      UnusedMarkTarget(c, targets[|targets| - 1], before, t, n);
    }
  }

  lemma {:induction false} UnusedMarkTarget(c: Context, target: Target, st: State, t: nat, n: nat)
    requires Unused(c, st, t, n) && t !in ApplyOne(c, target, st).applied && !ApplyOne(c, target, st).died
    ensures Marks(c, Mark(st, t, n).applied)
    ensures ApplyOne(c, target, Mark(st, t, n)) == Mark(ApplyOne(c, target, st), t, n)
    decreases Room(c, st), 0, 0
  {
    MarkMarks(c, st, t, n);
    if u: nat :| Resolves(c, target, st, u) {
      EnteredMarks(c, target, st, u);
      MarkEntered(c, target, st, u, t, n);
      RoomForMarks(|c.templates|, st.applied, u);
      UnusedMark(c, c.templates[u].params, Entered(c, target, st, u), t, n);
      LeaveMarked(c, target, st, u, t, n);
    } else {
      ApplyUnresolved(c, target, st);
      forall u ensures !Resolves(c, target, Mark(st, t, n), u) {
        assert !Resolves(c, target, st, u);
      }
      UnresolvedMark(c, target, st, t, n);
    }
  }

  lemma LeaveMarked(c: Context, target: Target, st: State, u: nat, t: nat, n: nat)
    requires Unused(c, st, t, n) && u != t && Resolves(c, target, st, u) && Resolves(c, target, Mark(st, t, n), u)
    requires Marks(c, Mark(st, t, n).applied) && Marks(c, Entered(c, target, st, u).applied)
    requires Marks(c, Mark(Entered(c, target, st, u), t, n).applied)
    requires Entered(c, target, Mark(st, t, n), u) == Mark(Entered(c, target, st, u), t, n)
    requires EvalParams(c, c.templates[u].params, Mark(Entered(c, target, st, u), t, n)) ==
             Mark(EvalParams(c, c.templates[u].params, Entered(c, target, st, u)), t, n)
    ensures ApplyOne(c, target, Mark(st, t, n)) == Mark(ApplyOne(c, target, st), t, n)
  {
    EnteredMarks(c, target, st, u);
    EnteredMarks(c, target, Mark(st, t, n), u);
  }

  lemma MarkEntered(c: Context, target: Target, st: State, u: nat, t: nat, n: nat)
    requires Unused(c, st, t, n) && u != t && Resolves(c, target, st, u)
    ensures Resolves(c, target, Mark(st, t, n), u)
    ensures Entered(c, target, Mark(st, t, n), u) == Mark(Entered(c, target, st, u), t, n)
  {
    MarkMarks(c, st, t, n);
    var a := st.applied;
    assert a[..n] + [t] + a[n..] + [u] == (a + [u])[..n] + [t] + (a + [u])[n..];
  }

  lemma UnresolvedMark(c: Context, target: Target, st: State, t: nat, n: nat)
    requires Unused(c, st, t, n) && !ApplyOne(c, target, st).died
    requires Marks(c, Mark(st, t, n).applied)
    requires forall u :: !Resolves(c, target, st, u) && !Resolves(c, target, Mark(st, t, n), u)
    ensures ApplyOne(c, target, st) == st && ApplyOne(c, target, Mark(st, t, n)) == Mark(st, t, n)
  {
    ApplyUnresolved(c, target, st);
    ApplyUnresolved(c, target, Mark(st, t, n));
    MarkMarks(c, st, t, n);
  }

  lemma ApplySingle(c: Context, target: Target, st: State)
    requires Marks(c, st.applied)
    ensures EvalParams(c, [Apply([target])], st) == ApplyOne(c, target, st)
  {
    assert [Apply([target])][..0] == [];
    assert [target][..0] == [];
    assert EvalParams(c, [], st) == st;
    assert ApplyAll(c, [target], st) == ApplyOne(c, target, st);
    assert EvalParam(c, Apply([target]), st) == ApplyOne(c, target, st);
  }
}
