/**
 Assignments inside of template bodies.  `set_var` first drops the name from the argument scope, and
 the function that does so ends the daemon.  Evaluation as it is written and evaluation as it is
 meant are compared here: they agree exactly as long as no assignment is reached under an argument
 scope.
 */
module Assignments {
  import opened Options
  import opened Evaluator
  import opened Templates

  function Repaired(c: Context): Context {
    c.(repaired := true)
  }

  // -------------------------------------------------- as written and as meant

  /** `w` is what the code makes, `r` what is meant: the same, unless an assignment was hit, and then `w` is dead. */
  ghost predicate Twin(w: State, r: State) {
    if r.hit then w.died else w == r
  }

  lemma PutVarTwin(c: Context, st: State, k: string, value: string)
    requires !c.repaired && !st.hit
    ensures Twin(PutVar(c, st, k, value), PutVar(Repaired(c), st, k, value))
  {
  }

  lemma GiveTwin(c: Context, key: string, value: string, st: State)
    requires !c.repaired && !st.hit && !st.died
    ensures Twin(Give(c, key, value, st), Give(Repaired(c), key, value, st))
  {
    if key == "owner" {
      var user := Split(value).0;
      PutVarTwin(c, st, "OWNER", user);
    }
  }

  lemma {:induction false} GiveAllTwin(c: Context, key: string, values: seq<seq<Token>>, st: State)
    requires !c.repaired && !st.hit
    ensures Twin(GiveAll(c, key, values, st), GiveAll(Repaired(c), key, values, st))
  {
    if values != [] {
      var front, last := values[..|values| - 1], values[|values| - 1];
      GiveAllTwin(c, key, front, st);
      var b := GiveAll(Repaired(c), key, front, st);
      if !b.hit && !b.died {
        var v := Expand(Visible(b.vars), last);
        if v.Made? { GiveTwin(c, key, v.text, b); }
      }
      HitStays(Repaired(c), key, values, st);
    }
  }

  lemma HitStays(c: Context, key: string, values: seq<seq<Token>>, st: State)
    requires values != []
    ensures GiveAll(c, key, values[..|values| - 1], st).hit ==> GiveAll(c, key, values, st).hit
  {
  }

  lemma {:induction false} ParamsTwin(c: Context, ps: seq<Param>, st: State)
    requires !c.repaired && !st.hit && Marks(c, st.applied)
    ensures Twin(EvalParams(c, ps, st), EvalParams(Repaired(c), ps, st))
    decreases Room(c, st), 3, |ps|
  {
    if ps != [] {
      var front, last := ps[..|ps| - 1], ps[|ps| - 1];
      ParamsTwin(c, front, st);
      var b := EvalParams(Repaired(c), front, st);
      if !b.hit { ParamTwin(c, last, b); }
    }
  }

  lemma {:induction false} ParamTwin(c: Context, p: Param, st: State)
    requires !c.repaired && !st.hit && Marks(c, st.applied)
    ensures Twin(EvalParam(c, p, st), EvalParam(Repaired(c), p, st))
    decreases Room(c, st), 2, 0
  {
    if !st.died {
      match p
      case Assign(k, ts) =>
        var v := Expand(Visible(st.vars), ts);
        if v.Made? { PutVarTwin(c, st, k, v.text); }
      case Apply(targets) => TargetsTwin(c, targets, st);
      case Set(key, append, values) =>
        GiveAllTwin(c, key, values, if key in LIST_KEYS && !append then st.(log := st.log + [Cleared(key)]) else st);
    }
  }

  lemma {:induction false} TargetsTwin(c: Context, targets: seq<Target>, st: State)
    requires !c.repaired && !st.hit && Marks(c, st.applied)
    ensures Twin(ApplyAll(c, targets, st), ApplyAll(Repaired(c), targets, st))
    decreases Room(c, st), 1, |targets|
  {
    if targets != [] {
      var front, last := targets[..|targets| - 1], targets[|targets| - 1];
      TargetsTwin(c, front, st);
      var b := ApplyAll(Repaired(c), front, st);
      if !b.hit { TargetTwin(c, last, b); }
    }
  }

  lemma {:induction false} TargetTwin(c: Context, target: Target, st: State)
    requires !c.repaired && !st.hit && Marks(c, st.applied)
    ensures Twin(ApplyOne(c, target, st), ApplyOne(Repaired(c), target, st))
    decreases Room(c, st), 0, 0
  {
    if t: nat :| Resolves(c, target, st, t) {
      EnteredMarks(c, target, st, t);
      EnteredMarks(Repaired(c), target, st, t);
      RoomForMarks(|c.templates|, st.applied, t);
      ParamsTwin(c, c.templates[t].params, Entered(c, target, st, t));
    } else {
      NobodyResolves(c, target, st);
      ApplyUnresolved(c, target, st);
    }
  }

  lemma NobodyResolves(c: Context, target: Target, st: State)
    requires Marks(c, st.applied) && forall t: nat :: !Resolves(c, target, st, t)
    ensures ApplyOne(Repaired(c), target, st) == ApplyOne(c, target, st)
  {
    var name := Expand(Visible(st.vars), target.name);
    if !st.died && name.Made? && Find(c.templates, name.text).Some? {
      assert !Resolves(c, target, st, Find(c.templates, name.text).value);
    }
  }

  /**
   The code as it is written dies exactly when the evaluation as it is meant dies or reaches an
   assignment under an argument scope; otherwise the two agree in everything.
   */
  lemma AsWritten(c: Context, ps: seq<Param>, st: State)
    requires !c.repaired && !st.hit && Marks(c, st.applied)
    ensures var w, r := EvalParams(c, ps, st), EvalParams(Repaired(c), ps, st);
      (w.died <==> r.died || r.hit) && (!w.died ==> w == r)
  {
    ParamsTwin(c, ps, st);
  }

  // ---------------------------------------------------- when it is never reached

  /** The parameter sets a variable. */
  predicate Assigns(p: Param) {
    p.Assign? || (p.Set? && (p.key == "name" || p.key == "owner"))
  }

  predicate NoAssigns(ps: seq<Param>) {
    forall i :: 0 <= i < |ps| ==> !Assigns(ps[i])
  }

  ghost predicate PlainTemplates(c: Context) {
    forall i :: 0 <= i < |c.templates| ==> NoAssigns(c.templates[i].params)
  }

  lemma {:induction false} GiveAllUnhit(c: Context, key: string, values: seq<seq<Token>>, st: State)
    requires !st.hit && (st.scoped ==> key != "name" && key != "owner")
    ensures !GiveAll(c, key, values, st).hit
  {
    if values != [] { GiveAllUnhit(c, key, values[..|values| - 1], st); }
  }

  lemma {:induction false} ParamsUnhit(c: Context, ps: seq<Param>, st: State)
    requires PlainTemplates(c) && !st.hit && Marks(c, st.applied) && (st.scoped ==> NoAssigns(ps))
    ensures !EvalParams(c, ps, st).hit
    decreases Room(c, st), 3, |ps|
  {
    if ps != [] {
      var front, last := ps[..|ps| - 1], ps[|ps| - 1];
      assert st.scoped ==> !Assigns(last);
      ParamsUnhit(c, front, st);
      ParamUnhit(c, last, EvalParams(c, front, st));
    }
  }

  lemma {:induction false} ParamUnhit(c: Context, p: Param, st: State)
    requires PlainTemplates(c) && !st.hit && Marks(c, st.applied) && (st.scoped ==> !Assigns(p))
    ensures !EvalParam(c, p, st).hit
    decreases Room(c, st), 2, 0
  {
    if !st.died {
      match p
      case Assign(_, _) =>
      case Apply(targets) => TargetsUnhit(c, targets, st);
      case Set(key, append, values) =>
        GiveAllUnhit(c, key, values, if key in LIST_KEYS && !append then st.(log := st.log + [Cleared(key)]) else st);
    }
  }

  lemma {:induction false} TargetsUnhit(c: Context, targets: seq<Target>, st: State)
    requires PlainTemplates(c) && !st.hit && Marks(c, st.applied)
    ensures !ApplyAll(c, targets, st).hit
    decreases Room(c, st), 1, |targets|
  {
    if targets != [] {
      var front, last := targets[..|targets| - 1], targets[|targets| - 1];
      TargetsUnhit(c, front, st);
      TargetUnhit(c, last, ApplyAll(c, front, st));
    }
  }

  lemma {:induction false} TargetUnhit(c: Context, target: Target, st: State)
    requires PlainTemplates(c) && !st.hit && Marks(c, st.applied)
    ensures !ApplyOne(c, target, st).hit
    decreases Room(c, st), 0, 0
  {
    if t: nat :| Resolves(c, target, st, t) {
      EnteredMarks(c, target, st, t);
      RoomForMarks(|c.templates|, st.applied, t);
      ParamsUnhit(c, c.templates[t].params, Entered(c, target, st, t));
    } else {
      ApplyUnresolved(c, target, st);
    }
  }

  /** If no template body sets a variable, the code does what is meant, in every section. */
  lemma PlainTemplatesAgree(c: Context, ps: seq<Param>, st: State)
    requires PlainTemplates(c) && !c.repaired && !st.hit && !st.scoped && Marks(c, st.applied)
    ensures EvalParams(c, ps, st) == EvalParams(Repaired(c), ps, st)
  {
    ParamsUnhit(Repaired(c), ps, st);
    ParamsTwin(c, ps, st);
  }

  /** A template that does nothing but assign, applied once: what is meant is fine, and the code dies. */
  lemma AssignmentExample(c: Context, st: State, k: string, value: string)
    requires !c.repaired && c.templates == [Template("t", [], [Assign(k, [Literal(value)])])]
    requires st.applied == [] && !st.died && !st.hit
    ensures var ps := [Apply([Target([Literal("t")], [])])];
      && EvalParams(c, ps, st).died && !EvalParams(Repaired(c), ps, st).died
      && EvalParams(Repaired(c), ps, st).vars.local == st.vars.local[k := value]
  {
    var target := Target([Literal("t")], []);
    ExampleResolves(c, target, st);
    ApplySingle(c, target, st);
    ApplySingle(Repaired(c), target, st);
    EnteredMarks(c, target, st, 0);
    EnteredMarks(Repaired(c), target, st, 0);
    ExampleBody(c, Entered(c, target, st, 0), k, value);
    ExampleBody(Repaired(c), Entered(Repaired(c), target, st, 0), k, value);
  }

  lemma ExampleResolves(c: Context, target: Target, st: State)
    requires |c.templates| == 1 && c.templates[0].name == "t" && c.templates[0].argdefs == []
    requires target == Target([Literal("t")], []) && st.applied == [] && !st.died
    ensures Resolves(c, target, st, 0) && Resolves(Repaired(c), target, st, 0)
  {
    var ts := [Literal("t")];
    assert ts[..0] == [] && "" + "t" == "t";
    assert Expand(Visible(st.vars), ts) == Made("t");
    assert Find(c.templates, "t") == Some(0);
  }

  lemma ExampleBody(c: Context, st: State, k: string, value: string)
    requires Marks(c, st.applied) && !st.died
    ensures EvalParams(c, [Assign(k, [Literal(value)])], st) == PutVar(c, st, k, value)
  {
    var p, ts := Assign(k, [Literal(value)]), [Literal(value)];
    assert ts[..0] == [] && "" + value == value;
    assert Expand(Visible(st.vars), ts) == Made(value);
    assert [p][..0] == [];
    assert EvalParams(c, [], st) == st;
  }

  // ------------------------------------------------------ when it can be reached

  predicate NoCalculation(ts: seq<Token>) {
    forall i :: 0 <= i < |ts| ==> !ts[i].Calculation?
  }

  /** The text that a parameter gives to a variable whatever the account database says. */
  function TextGiven(p: Param): Option<seq<Token>> {
    match p
    case Assign(_, ts) => Some(ts)
    case Apply(_) => None
    case Set(key, _, values) => if key == "name" && values != [] then Some(values[0]) else None
  }

  /** Assignments that give every variable of the text a value. */
  function Definitions(ts: seq<Token>): seq<Param> {
    if ts == [] then []
    else
      var before, last := Definitions(ts[..|ts| - 1]), ts[|ts| - 1];
      if last.Ref? then before + [Assign(last.name, [Literal("")])] else before
  }

  /** A section that gives the text what it needs and applies the template. */
  function Victim(name: string, ts: seq<Token>): seq<Param> {
    Definitions(ts) + [Apply([Target([Literal(name)], [])])]
  }

  ghost predicate Defined(ts: seq<Token>, scope: Scope) {
    forall i :: 0 <= i < |ts| && ts[i].Ref? ==> ts[i].name in scope
  }

  lemma ExpandLiteral(env: Scope, text: string)
    ensures Expand(env, [Literal(text)]) == Made(text)
  {
    var ts := [Literal(text)];
    assert ts[..0] == [] && "" + text == text;
  }

  lemma {:induction false} ExpandDefined(env: Scope, ts: seq<Token>)
    requires NoCalculation(ts) && Defined(ts, env)
    ensures Expand(env, ts).Made?
  {
    if ts != [] {
      ExpandDefined(env, ts[..|ts| - 1]);
      assert !ts[|ts| - 1].Calculation?;
    }
  }

  lemma {:induction false} DefinitionsBind(c: Context, ts: seq<Token>, st: State)
    requires Marks(c, st.applied) && !st.died && !st.scoped
    ensures var r := EvalParams(c, Definitions(ts), st);
      !r.died && !r.scoped && r.applied == st.applied && Defined(ts, r.vars.local)
  {
    if ts != [] {
      var front, last := ts[..|ts| - 1], ts[|ts| - 1];
      DefinitionsBind(c, front, st);
      if last.Ref? {
        EvalConcat(c, Definitions(front), [Assign(last.name, [Literal("")])], st);
        ExampleBody(c, EvalParams(c, Definitions(front), st), last.name, "");
      }
      MoreDefined(ts, EvalParams(c, Definitions(front), st).vars.local, EvalParams(c, Definitions(ts), st).vars.local);
    }
  }

  lemma MoreDefined(ts: seq<Token>, scope: Scope, scope': Scope)
    requires ts != [] && Defined(ts[..|ts| - 1], scope) && scope.Keys <= scope'.Keys
    requires ts[|ts| - 1].Ref? ==> ts[|ts| - 1].name in scope'
    ensures Defined(ts, scope')
  {
    var front := ts[..|ts| - 1];
    forall i | 0 <= i < |ts| && ts[i].Ref? ensures ts[i].name in scope' {
      if i < |front| { assert front[i].name in scope.Keys; }
    }
  }

  /** A parameter that is sure to set a variable ends the daemon under an argument scope. */
  lemma ParamKills(c: Context, p: Param, st: State)
    requires !c.repaired && Marks(c, st.applied) && st.scoped
    requires TextGiven(p).Some? && NoCalculation(TextGiven(p).value) && Defined(TextGiven(p).value, st.vars.local)
    ensures EvalParam(c, p, st).died
  {
    if !st.died {
      ExpandDefined(Visible(st.vars), TextGiven(p).value);
      if p.Set? {
        NameIsNoList();
        NameKills(c, p.values, st);
      }
    }
  }

  lemma NameIsNoList()
    ensures "name" !in LIST_KEYS
  {
    assert "name"[2] == 'm' && "network"[2] == 't';
    assert forall k <- LIST_KEYS :: k[0] == 'n' ==> k[2] == 't';
  }

  lemma {:induction false} NameKills(c: Context, values: seq<seq<Token>>, st: State)
    requires !c.repaired && st.scoped && !st.died && values != [] && Expand(Visible(st.vars), values[0]).Made?
    ensures GiveAll(c, "name", values, st).died
  {
    var front := values[..|values| - 1];
    if |values| > 1 {
      assert front[0] == values[0];
      NameKills(c, front, st);
    } else {
      assert GiveAll(c, "name", front, st) == st;
    }
  }

  /** So does a body that holds one, wherever. */
  lemma BodyKills(c: Context, ps: seq<Param>, i: nat, st: State)
    requires !c.repaired && Marks(c, st.applied) && st.scoped && i < |ps|
    requires TextGiven(ps[i]).Some? && NoCalculation(TextGiven(ps[i]).value)
    requires Defined(TextGiven(ps[i]).value, st.vars.local)
    ensures EvalParams(c, ps, st).died
  {
    var front, back := ps[..i + 1], ps[i + 1..];
    assert ps == front + back && front[..i] == ps[..i];
    var b := EvalParams(c, ps[..i], st);
    ParamKills(c, ps[i], b);
    EvalConcat(c, front, back, st);
    assert EvalParams(c, front, st) == EvalParam(c, ps[i], b);
  }

  /**
   A template that can be found and holds an assignment, or sets `name`, to a text without
   arithmetic has a section that kills the daemon, whatever else it and the other templates hold.
   */
  lemma AssignmentKills(c: Context, t: nat, i: nat, st: State)
    requires !c.repaired && t < |c.templates| && Find(c.templates, c.templates[t].name) == Some(t)
    requires i < |c.templates[t].params| && TextGiven(c.templates[t].params[i]).Some?
    requires NoCalculation(TextGiven(c.templates[t].params[i]).value)
    requires st.applied == [] && !st.scoped
    ensures EvalParams(c, Victim(c.templates[t].name, TextGiven(c.templates[t].params[i]).value), st).died
  {
    var name, ts := c.templates[t].name, TextGiven(c.templates[t].params[i]).value;
    var target := Target([Literal(name)], []);
    EvalConcat(c, Definitions(ts), [Apply([target])], st);
    if !st.died {
      DefinitionsBind(c, ts, st);
      var b := EvalParams(c, Definitions(ts), st);
      ApplySingle(c, target, b);
      ExpandLiteral(Visible(b.vars), name);
      if Resolves(c, target, b, t) {
        EnteredMarks(c, target, b, t);
        BodyKills(c, c.templates[t].params, i, Entered(c, target, b, t));
      }
    }
  }

  // ------------------------------------------------ the scope flag does not matter

  /** The state without the flags that say where an assignment was made. */
  function Loose(st: State): State {
    st.(scoped := false, hit := false)
  }

  /** The same, except that `st'` may have an argument scope and a hit where `st` has none. */
  ghost predicate Under(st: State, st': State) {
    Loose(st) == Loose(st') && (st.scoped ==> st'.scoped) && (st.hit ==> st'.hit)
  }

  lemma PutVarLoose(c: Context, st: State, st': State, k: string, value: string)
    requires c.repaired && Under(st, st')
    ensures Under(PutVar(c, st, k, value), PutVar(c, st', k, value))
  {
  }

  lemma GiveLoose(c: Context, key: string, value: string, st: State, st': State)
    requires c.repaired && Under(st, st')
    ensures Under(Give(c, key, value, st), Give(c, key, value, st'))
  {
    if key == "name" {
      PutVarLoose(c, st, st', "NAME", value);
    } else if key == "owner" {
      var (user, group) := Split(value);
      PutVarLoose(c, st, st', "OWNER", user);
      if group.Some? {
        PutVarLoose(c, PutVar(c, st, "OWNER", user), PutVar(c, st', "OWNER", user), "GROUP", group.value);
      }
    }
  }

  lemma {:induction false} GiveAllLoose(c: Context, key: string, values: seq<seq<Token>>, st: State, st': State)
    requires c.repaired && Under(st, st')
    ensures Under(GiveAll(c, key, values, st), GiveAll(c, key, values, st'))
  {
    if values != [] {
      var front, last := values[..|values| - 1], values[|values| - 1];
      GiveAllLoose(c, key, front, st, st');
      var b, b' := GiveAll(c, key, front, st), GiveAll(c, key, front, st');
      assert Loose(b).vars == b.vars && Loose(b').vars == b'.vars && b.died == b'.died;
      var v := Expand(Visible(b.vars), last);
      if !b.died && v.Made? { GiveLoose(c, key, v.text, b, b'); }
    }
  }

  lemma {:induction false} ParamsLoose(c: Context, ps: seq<Param>, st: State, st': State)
    requires c.repaired && Marks(c, st.applied) && Under(st, st')
    ensures Marks(c, st'.applied) && Under(EvalParams(c, ps, st), EvalParams(c, ps, st'))
    decreases Room(c, st), 3, |ps|
  {
    assert st'.applied == Loose(st').applied == st.applied;
    if ps != [] {
      var front, last := ps[..|ps| - 1], ps[|ps| - 1];
      ParamsLoose(c, front, st, st');
      ParamLoose(c, last, EvalParams(c, front, st), EvalParams(c, front, st'));
    }
  }

  lemma {:induction false} ParamLoose(c: Context, p: Param, st: State, st': State)
    requires c.repaired && Marks(c, st.applied) && Marks(c, st'.applied) && Under(st, st')
    ensures Under(EvalParam(c, p, st), EvalParam(c, p, st'))
    decreases Room(c, st), 2, 0
  {
    SameParts(st, st');
    if !st.died {
      match p
      case Assign(k, ts) =>
        var v := Expand(Visible(st.vars), ts);
        if v.Made? { PutVarLoose(c, st, st', k, v.text); }
      case Apply(targets) => TargetsLoose(c, targets, st, st');
      case Set(key, append, values) =>
        if key in LIST_KEYS && !append {
          var log := st.log + [Cleared(key)];
          GiveAllLoose(c, key, values, st.(log := log), st'.(log := log));
        } else {
          GiveAllLoose(c, key, values, st, st');
        }
    }
  }

  lemma SameParts(st: State, st': State)
    requires Loose(st) == Loose(st')
    ensures st.vars == st'.vars && st.applied == st'.applied && st.log == st'.log && st.died == st'.died
    ensures st.sets == st'.sets && st.origin == st'.origin
  {
    assert Loose(st).vars == st.vars && Loose(st').vars == st'.vars;
    assert Loose(st).log == st.log && Loose(st').log == st'.log;
  }

  lemma {:induction false} TargetsLoose(c: Context, targets: seq<Target>, st: State, st': State)
    requires c.repaired && Marks(c, st.applied) && Marks(c, st'.applied) && Under(st, st')
    ensures Under(ApplyAll(c, targets, st), ApplyAll(c, targets, st'))
    decreases Room(c, st), 1, |targets|
  {
    if targets != [] {
      var front, last := targets[..|targets| - 1], targets[|targets| - 1];
      TargetsLoose(c, front, st, st');
      TargetLoose(c, last, ApplyAll(c, front, st), ApplyAll(c, front, st'));
    }
  }

  lemma {:induction false} TargetLoose(c: Context, target: Target, st: State, st': State)
    requires c.repaired && Marks(c, st.applied) && Marks(c, st'.applied) && Under(st, st')
    ensures Under(ApplyOne(c, target, st), ApplyOne(c, target, st'))
    decreases Room(c, st), 0, 0
  {
    SameParts(st, st');
    if t: nat :| Resolves(c, target, st, t) {
      assert Resolves(c, target, st', t);
      EnteredMarks(c, target, st, t);
      EnteredMarks(c, target, st', t);
      RoomForMarks(|c.templates|, st.applied, t);
      EnteredLoose(c, target, st, st', t);
      ParamsLoose(c, c.templates[t].params, Entered(c, target, st, t), Entered(c, target, st', t));
      LeftLoose(st, st', EvalParams(c, c.templates[t].params, Entered(c, target, st, t)),
                EvalParams(c, c.templates[t].params, Entered(c, target, st', t)));
    } else {
      LooseUnresolved(c, target, st, st');
    }
  }

  lemma EnteredLoose(c: Context, target: Target, st: State, st': State, t: nat)
    requires Under(st, st') && Resolves(c, target, st, t) && Resolves(c, target, st', t)
    ensures Under(Entered(c, target, st, t), Entered(c, target, st', t))
  {
    SameParts(st, st');
  }

  lemma LeftLoose(st: State, st': State, r: State, r': State)
    requires Under(st, st') && Under(r, r')
    ensures Under(r.(vars := r.vars.(args := st.vars.args), scoped := st.scoped),
                  r'.(vars := r'.vars.(args := st'.vars.args), scoped := st'.scoped))
  {
    SameParts(st, st');
    SameParts(r, r');
  }

  lemma LooseUnresolved(c: Context, target: Target, st: State, st': State)
    requires Marks(c, st.applied) && Marks(c, st'.applied) && Under(st, st')
    requires forall t: nat :: !Resolves(c, target, st, t)
    ensures Under(ApplyOne(c, target, st), ApplyOne(c, target, st'))
  {
    SameParts(st, st');
    var name := Expand(Visible(st.vars), target.name);
    if !st.died && name.Made? && Find(c.templates, name.text).Some? {
      assert !Resolves(c, target, st, Find(c.templates, name.text).value);
    }
  }

  // ------------------------------------------------------------ writing it out

  /** A template without arguments, its body in place of its application. */
  function Inlined(c: Context, t: nat, pre: seq<Param>, post: seq<Param>): seq<Param>
    requires t < |c.templates|
  {
    pre + c.templates[t].params + post
  }

  function Applied(target: Target, pre: seq<Param>, post: seq<Param>): seq<Param> {
    pre + [Apply([target])] + post
  }

  /**
   A template without arguments, applied where no arguments are bound, can be written out in
   place: variables, configuration, assignments and marks come out the same, but for the mark of
   the template itself, as long as what was written out does not apply that template and the daemon
   survives it.
   */
  lemma WriteOut(c: Context, target: Target, t: nat, pre: seq<Param>, post: seq<Param>, st: State)
    requires c.repaired && Marks(c, st.applied) && st.vars.args == map[]
    requires Resolves(c, target, EvalParams(c, pre, st), t) && c.templates[t].argdefs == []
    requires var r := EvalParams(c, Inlined(c, t, pre, post), st); t !in r.applied && !r.died
    ensures |EvalParams(c, pre, st).applied| <= |EvalParams(c, Inlined(c, t, pre, post), st).applied|
    ensures Under(Mark(EvalParams(c, Inlined(c, t, pre, post), st), t, |EvalParams(c, pre, st).applied|),
                  EvalParams(c, Applied(target, pre, post), st))
  {
    var body := c.templates[t].params;
    var here := EvalParams(c, pre, st);
    var n := |here.applied|;
    EvalConcat(c, pre + body, post, st);
    EvalConcat(c, pre, body, st);
    EvalConcat(c, body, post, here);
    UnusedMark(c, body + post, here, t, n);
    var marked := Mark(here, t, n);
    EvalConcat(c, body, post, marked);
    EnteredHere(c, target, here, t);
    EvalConcat(c, pre + [Apply([target])], post, st);
    EvalConcat(c, pre, [Apply([target])], st);
    ParamsLoose(c, post, EvalParams(c, body, marked), ApplyOne(c, target, here));
  }

  /** Entering the body changes nothing but the mark and the flag. */
  lemma EnteredHere(c: Context, target: Target, st: State, t: nat)
    requires c.repaired && Marks(c, st.applied) && st.vars.args == map[]
    requires Resolves(c, target, st, t) && c.templates[t].argdefs == []
    ensures var marked := Mark(st, t, |st.applied|);
      && Marks(c, marked.applied)
      && Under(EvalParams(c, c.templates[t].params, marked), ApplyOne(c, target, st))
    ensures EvalParams(c, [Apply([target])], st) == ApplyOne(c, target, st)
  {
    var n, body := |st.applied|, c.templates[t].params;
    ApplySingle(c, target, st);
    EnteredMarks(c, target, st, t);
    var inner, marked := Entered(c, target, st, t), Mark(st, t, n);
    assert marked.applied == inner.applied by {
      assert st.applied[..n] + [t] + st.applied[n..] == st.applied + [t];
    }
    assert inner == marked.(scoped := true);
    ParamsLoose(c, body, marked, inner);
    SameParts(EvalParams(c, body, marked), EvalParams(c, body, inner));
  }

  /** With the code as it is: if it survives the application, it survives the text written out, to the same effect. */
  lemma WriteOutAsWritten(c: Context, target: Target, t: nat, pre: seq<Param>, post: seq<Param>, st: State)
    requires !c.repaired && Marks(c, st.applied) && st.vars.args == map[] && !st.hit
    requires Resolves(c, target, EvalParams(Repaired(c), pre, st), t) && c.templates[t].argdefs == []
    requires var r := EvalParams(Repaired(c), Inlined(c, t, pre, post), st); t !in r.applied && !r.died
    requires !EvalParams(c, Applied(target, pre, post), st).died
    ensures |EvalParams(c, pre, st).applied| <= |EvalParams(c, Inlined(c, t, pre, post), st).applied|
    ensures EvalParams(c, Applied(target, pre, post), st) ==
            Mark(EvalParams(c, Inlined(c, t, pre, post), st), t, |EvalParams(c, pre, st).applied|)
  {
    var app, inl, n := Applied(target, pre, post), Inlined(c, t, pre, post), |EvalParams(Repaired(c), pre, st).applied|;
    WriteOut(Repaired(c), target, t, pre, post, st);
    Transfer(c, app, inl, st, t, n);
    Regroup(pre, c.templates[t].params, post);
    PrefixAgrees(c, pre, c.templates[t].params + post, st);
  }

  lemma Regroup(a: seq<Param>, b: seq<Param>, c: seq<Param>)
    ensures a + b + c == a + (b + c)
  {
  }

  lemma Transfer(c: Context, app: seq<Param>, inl: seq<Param>, st: State, t: nat, n: nat)
    requires !c.repaired && Marks(c, st.applied) && !st.hit && n <= |EvalParams(Repaired(c), inl, st).applied|
    requires Under(Mark(EvalParams(Repaired(c), inl, st), t, n), EvalParams(Repaired(c), app, st))
    requires !EvalParams(Repaired(c), inl, st).died && !EvalParams(c, app, st).died
    ensures !EvalParams(c, inl, st).died && n <= |EvalParams(c, inl, st).applied|
    ensures EvalParams(c, app, st) == Mark(EvalParams(c, inl, st), t, n)
  {
    AsWritten(c, app, st);
    AsWritten(c, inl, st);
    var r, r' := EvalParams(Repaired(c), inl, st), EvalParams(Repaired(c), app, st);
    SameFlags(Mark(r, t, n), r');
  }

  lemma SameFlags(st: State, st': State)
    requires Under(st, st') && !st'.hit && st.scoped == st'.scoped
    ensures st == st'
  {
    SameParts(st, st');
  }

  /** Where the whole agrees and survives, the first part agrees. */
  lemma PrefixAgrees(c: Context, ps: seq<Param>, qs: seq<Param>, st: State)
    requires !c.repaired && !st.hit && Marks(c, st.applied) && !EvalParams(c, ps + qs, st).died
    ensures EvalParams(c, ps, st) == EvalParams(Repaired(c), ps, st)
  {
    EvalConcat(c, ps, qs, st);
    AsWritten(c, ps, st);
  }
}
