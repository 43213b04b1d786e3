/**
 The evaluator as the daemon runs it: one set of variables and marks, updated in place while the
 sections are worked through.
 */
module LoaderProgram {
  import opened Options
  import opened Numbers
  import opened Evaluator
  import opened Sections

  class Loader {
    const c: Context
    var args: Scope
    var local: Scope
    var global: Scope
    var applied: seq<nat>
    var log: seq<Effect>
    var sets: seq<(string, string)>
    var origin: Scope
    var scoped: bool
    var hit: bool
    var died: bool

    ghost function View(): State
      reads this
    {
      State(Variables(args, local, global), applied, log, sets, origin, scoped, hit, died)
    }

    constructor (c: Context, global: Scope)
      ensures this.c == c && this.global == global
    {
      this.c := c;
      this.global := global;
      args, local, applied, log, sets, origin := map[], map[], [], [], [], map[];
      scoped, hit, died := false, false, false;
    }

    /** `set_var`; with an argument scope it goes through `del_var`. */
    method SetVariable(k: string, value: string)
      modifies this
      ensures View() == PutVar(c, old(View()), k, value)
    {
      if scoped {
        hit := true;
        if !c.repaired {
          died := true;
          return;
        }
        args := args - {k};
        local := local[k := value];
        sets := sets + [(k, value)];
      } else {
        SetPlainly(k, value);
      }
    }

    /** `set_var` where there is no argument scope. */
    method SetPlainly(k: string, value: string)
      requires !scoped
      modifies this`args, this`local, this`sets
      ensures Variables(args, local, global) == SetVar(old(Variables(args, local, global)), k, value)
      ensures sets == old(sets) + [(k, value)]
    {
      args := args - {k};
      local := local[k := value];
      sets := sets + [(k, value)];
    }

    method ToString(ts: seq<Token>) returns (r: Outcome)
      ensures r == Expand(Visible(View().vars), ts)
    {
      r := TokenToString(global + local + args, ts);
    }

    method GiveValue(key: string, value: string)
      modifies this
      ensures View() == Give(c, key, value, old(View()))
    {
      if !Takes(c, log, key, value) {
        return;
      }
      if key == "name" {
        SetVariable("NAME", value);
      } else if key == "owner" {
        var (user, group) := Split(value);
        SetVariable("OWNER", user);
        if !died && group.Some? {
          SetVariable("GROUP", group.value);
        }
      }
      if died {
        return;
      }
      log := log + [Given(key, value)];
    }

    method GiveExpanded(key: string, value: seq<Token>)
      modifies this
      ensures View() == GiveNext(c, key, value, old(View()))
    {
      var v := ToString(value);
      if v.Made? {
        GiveValue(key, v.text);
      } else if v.Died? {
        died := true;
      }
    }

    method GiveValues(key: string, values: seq<seq<Token>>)
      requires !died
      modifies this
      ensures View() == GiveAll(c, key, values, old(View()))
    {
      var i := 0;
      while i < |values|
        invariant 0 <= i <= |values| && !died
        invariant View() == GiveAll(c, key, values[..i], old(View()))
      {
        GiveFollows(c, key, values, i, old(View()));
        GiveExpanded(key, values[i]);
        i := i + 1;
        if died {
          GiveStops(c, key, values, i, old(View()));
          return;
        }
      }
      assert values[..|values|] == values;
    }

    /** The loop over the argument definitions of a template. */
    method CollectArgs(defs: seq<ArgDef>, actual: seq<seq<Token>>) returns (r: Option<Scope>)
      ensures r == BindArgs(Visible(View().vars), defs, actual, |defs|)
    {
      ghost var env := Visible(View().vars);
      var scope: Scope := map[];
      for i := 0 to |defs|
        invariant BindArgs(env, defs, actual, i) == Some(scope)
      {
        var a := ToString(if i < |actual| then actual[i] else defs[i].default);
        if a.Died? {
          assert ArgText(env, defs, actual, i).Died?;
          BindStops(env, defs, actual, i + 1, |defs|);
          return None;
        }
        BindNext(env, defs, actual, i);
        scope := scope[defs[i].name := if a.Made? then a.text else ""];
      }
      return Some(scope);
    }

    /** `vm_conf_set_params`. */
    method SetParams(ps: seq<Param>)
      requires Marks(c, applied)
      modifies this
      ensures View() == EvalParams(c, ps, old(View()))
      decreases Room(c, View()), 3
    {
      var i := 0;
      while i < |ps|
        invariant 0 <= i <= |ps|
        invariant Marks(c, applied) && View() == EvalParams(c, ps[..i], old(View()))
      {
        assert ps[..i + 1][..i] == ps[..i];
        SetParam(ps[i]);
        i := i + 1;
      }
      assert ps[..|ps|] == ps;
    }

    method SetParam(p: Param)
      requires Marks(c, applied)
      modifies this
      ensures View() == EvalParam(c, p, old(View()))
      decreases Room(c, View()), 2
    {
      if died {
        return;
      }
      match p {
        case Assign(k, ts) =>
          var v := ToString(ts);
          if v.Made? {
            SetVariable(k, v.text);
          } else if v.Died? {
            died := true;
          }
        case Apply(targets) =>
          ApplyTargets(targets);
        case Set(key, append, values) =>
          if key in LIST_KEYS && !append {
            log := log + [Cleared(key)];
          }
          GiveValues(key, values);
      }
    }

    method ApplyTargets(targets: seq<Target>)
      requires Marks(c, applied)
      modifies this
      ensures View() == ApplyAll(c, targets, old(View()))
      decreases Room(c, View()), 1
    {
      var i := 0;
      while i < |targets|
        invariant 0 <= i <= |targets|
        invariant Marks(c, applied) && View() == ApplyAll(c, targets[..i], old(View()))
      {
        ApplyNext(c, targets, i, old(View()));
        ApplyTemplate(targets[i]);
        i := i + 1;
      }
      assert targets[..|targets|] == targets;
    }

    /** `parse_apply`. */
    method ApplyTemplate(target: Target)
      requires Marks(c, applied)
      modifies this
      ensures View() == ApplyOne(c, target, old(View()))
      decreases Room(c, View()), 0
    {
      if died {
        return;
      }
      var name := ToString(target.name);
      if name.Died? {
        died := true;
        return;
      }
      if name.Undefined? {
        return;
      }
      var t := Find(c.templates, name.text);
      if t.None? || t.value in applied {
        return;
      }
      var tp := c.templates[t.value];
      var bound := CollectArgs(tp.argdefs, target.args);
      if bound.None? {
        died := true;
        return;
      }
      RoomForMarks(|c.templates|, applied, t.value);
      var callerArgs, callerScoped := args, scoped;
      applied := applied + [t.value];
      args, scoped := bound.value, true;
      SetParams(tp.params);
      args, scoped := callerArgs, callerScoped;
    }

    /** `clear_applied`. */
    method ClearApplied()
      modifies this`applied
      ensures applied == []
    {
      applied := [];
    }

    /** `create_vm_conf` and what follows it up to the evaluation of the section. */
    method Prepare(s: Section, id: nat)
      modifies this
      ensures View() == Initial(old(global), s, id)
    {
      log, scoped, hit, died := [], false, false, false;
      PrepareScope(s, id);
      sets, origin := [], local;
      ClearApplied();
    }

    method PrepareScope(s: Section, id: nat)
      requires !scoped
      modifies this`args, this`local, this`sets
      ensures Variables(args, local, global) == InitialScope(global, s, id)
    {
      args, local := map[], map["NAME" := s.name, "ID" := Show(id)];
      if s.owner.Some? {
        SetPlainly("OWNER", s.owner.value);
      }
      SetPlainly("GROUP", "");
    }

    /** One section, from the fresh configuration to the evaluated one. */
    method Evaluate(s: Section, id: nat) returns (st: State)
      modifies this
      ensures st == SectionEvaluation(c, old(global))(s, id) && global == old(global) && died == st.died
    {
      Prepare(s, id);
      SetParams(s.params);
      st := State(Variables(args, local, global), applied, log, sets, origin, scoped, hit, died);
    }

    /** One round of the loop over the VM sections. */
    method LoadSection(s: Section, ids: IdList, before: seq<State>) returns (states: seq<State>)
      requires before != [] ==> !before[|before| - 1].died
      modifies this, ids
      ensures (ids.View(), states) == LoadOne(SectionEvaluation(c, old(global)), (old(ids.View()), before), s)
      ensures global == old(global) && states != [] && died == states[|states| - 1].died
    {
      var id := ids.Obtain(s.name);
      var st := Evaluate(s, id);
      states := before + [st];
    }

    /**
     The loop over the VM sections.  The marks, the variables and the table of numbers are shared
     by all of them, yet each comes out as if evaluated alone.
     */
    method LoadSections(ss: seq<Section>, ids: IdList) returns (states: seq<State>)
      modifies this, ids
      ensures (ids.View(), states) == LoadAll(SectionEvaluation(c, old(global)), old(ids.View()), ss)
      ensures global == old(global)
    {
      states := [];
      ghost var eval := SectionEvaluation(c, global);
      var i := 0;
      while i < |ss|
        invariant 0 <= i <= |ss| && global == old(global)
        invariant (ids.View(), states) == LoadAll(eval, old(ids.View()), ss[..i])
        invariant states != [] ==> !states[|states| - 1].died
      {
        LoadNext(eval, old(ids.View()), ss, i);
        states := LoadSection(ss[i], ids, states);
        i := i + 1;
        if died {
          LoadStops(eval, old(ids.View()), ss, i);
          return;
        }
      }
      assert ss[..|ss|] == ss;
    }
  }

  lemma GiveFollows(c: Context, key: string, values: seq<seq<Token>>, i: nat, st: State)
    requires i < |values| && !GiveAll(c, key, values[..i], st).died
    ensures GiveAll(c, key, values[..i + 1], st) == GiveNext(c, key, values[i], GiveAll(c, key, values[..i], st))
  {
    assert values[..i + 1][..i] == values[..i];
  }

  lemma {:induction false} GiveStops(c: Context, key: string, values: seq<seq<Token>>, i: nat, st: State)
    requires i <= |values| && GiveAll(c, key, values[..i], st).died
    ensures GiveAll(c, key, values, st) == GiveAll(c, key, values[..i], st)
    decreases |values|
  {
    if i == |values| {
      assert values[..i] == values;
    } else {
      assert values[..|values| - 1][..i] == values[..i];
      GiveStops(c, key, values[..|values| - 1], i, st);
    }
  }

  lemma {:induction false} BindStops(env: Scope, defs: seq<ArgDef>, args: seq<seq<Token>>, i: nat, n: nat)
    requires i <= n <= |defs| && BindArgs(env, defs, args, i).None?
    ensures BindArgs(env, defs, args, n).None?
    decreases n
  {
    if i < n { BindStops(env, defs, args, i, n - 1); }
  }

  lemma BindNext(env: Scope, defs: seq<ArgDef>, args: seq<seq<Token>>, i: nat)
    requires i < |defs| && BindArgs(env, defs, args, i).Some? && !ArgText(env, defs, args, i).Died?
    ensures var a := ArgText(env, defs, args, i);
      BindArgs(env, defs, args, i + 1) ==
      Some(BindArgs(env, defs, args, i).value[defs[i].name := if a.Made? then a.text else ""])
  {
  }

  lemma ApplyNext(c: Context, targets: seq<Target>, i: nat, st: State)
    requires i < |targets| && Marks(c, st.applied)
    ensures ApplyAll(c, targets[..i + 1], st) == ApplyOne(c, targets[i], ApplyAll(c, targets[..i], st))
  {
    assert targets[..i + 1][..i] == targets[..i];
  }

  lemma LoadNext(eval: Evaluation, t: Table, ss: seq<Section>, i: nat)
    requires i < |ss|
    ensures LoadAll(eval, t, ss[..i + 1]) == LoadOne(eval, LoadAll(eval, t, ss[..i]), ss[i])
  {
    assert ss[..i + 1][..i] == ss[..i];
  }

  lemma {:induction false} LoadStops(eval: Evaluation, t: Table, ss: seq<Section>, i: nat)
    requires i <= |ss|
    requires var states := LoadAll(eval, t, ss[..i]).1; states != [] && states[|states| - 1].died
    ensures LoadAll(eval, t, ss) == LoadAll(eval, t, ss[..i])
    decreases |ss|
  {
    if i == |ss| {
      assert ss[..i] == ss;
    } else {
      assert ss[..|ss| - 1][..i] == ss[..i];
      LoadStops(eval, t, ss[..|ss| - 1], i);
    }
  }
}
