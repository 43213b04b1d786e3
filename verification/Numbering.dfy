/**
 The one thing that the order of the sections decides is the number that a name gets, which a
 section can read as the variable ID.  A section that does not read it is evaluated the same in
 every order and from every table of numbers.
 */
module Numbering {
  import opened Options
  import opened Numbers
  import opened Evaluator
  import opened Templates
  import opened Sections

  const ID: string := "ID"

  // ---------------------------------------------------------------- reading ID

  predicate ExpReads(e: Arith.Exp, x: string) {
    match e
    case Num(_) => false
    case Var(y) => x == y
    case Bin(_, l, r) => ExpReads(l, x) || ExpReads(r, x)
    case Neg(f) => ExpReads(f, x)
  }

  predicate TokenReads(t: Token, x: string) {
    match t
    case Literal(_) => false
    case Ref(y) => x == y
    case Calculation(e) => ExpReads(e, x)
  }

  predicate TextReads(ts: seq<Token>, x: string) {
    exists i :: 0 <= i < |ts| && TokenReads(ts[i], x)
  }

  predicate TextsRead(tss: seq<seq<Token>>, x: string) {
    exists i :: 0 <= i < |tss| && TextReads(tss[i], x)
  }

  predicate TargetReads(t: Target, x: string) {
    TextReads(t.name, x) || TextsRead(t.args, x)
  }

  predicate ParamReads(p: Param, x: string) {
    match p
    case Assign(_, ts) => TextReads(ts, x)
    case Apply(targets) => exists i :: 0 <= i < |targets| && TargetReads(targets[i], x)
    case Set(_, _, values) => TextsRead(values, x)
  }

  predicate ParamsRead(ps: seq<Param>, x: string) {
    exists i :: 0 <= i < |ps| && ParamReads(ps[i], x)
  }

  predicate TemplateReads(t: Template, x: string) {
    ParamsRead(t.params, x) || exists i :: 0 <= i < |t.argdefs| && TextReads(t.argdefs[i].default, x)
  }

  predicate TemplatesRead(ts: seq<Template>, x: string) {
    exists i :: 0 <= i < |ts| && TemplateReads(ts[i], x)
  }

  // ---------------------------------------------------------- the same up to ID

  /** The scopes differ at most in the binding of `x`. */
  ghost predicate Alike(a: Scope, b: Scope, x: string) {
    a - {x} == b - {x}
  }

  lemma AlikeAt(a: Scope, b: Scope, x: string, y: string)
    requires Alike(a, b, x) && y != x
    ensures (y in a <==> y in b) && (y in a ==> a[y] == b[y])
  {
    assert y in a - {x} <==> y in a;
    assert y in b - {x} <==> y in b;
    if y in a { assert (a - {x})[y] == (b - {x})[y]; }
  }

  lemma {:induction false} CalcAlike(a: Scope, b: Scope, x: string, e: Arith.Exp)
    requires Alike(a, b, x) && !ExpReads(e, x)
    ensures Arith.Calc(a, e) == Arith.Calc(b, e)
  {
    match e
    case Num(_) =>
    case Var(y) => AlikeAt(a, b, x, y);
    case Neg(f) => CalcAlike(a, b, x, f);
    case Bin(_, l, r) =>
      CalcAlike(a, b, x, l);
      CalcAlike(a, b, x, r);
  }

  lemma TokenAlike(a: Scope, b: Scope, x: string, t: Token)
    requires Alike(a, b, x) && !TokenReads(t, x)
    ensures ExpandToken(a, t) == ExpandToken(b, t)
  {
    match t
    case Literal(_) =>
    case Ref(y) => AlikeAt(a, b, x, y);
    case Calculation(e) => CalcAlike(a, b, x, e);
  }

  lemma {:induction false} ExpandAlike(a: Scope, b: Scope, x: string, ts: seq<Token>)
    requires Alike(a, b, x) && !TextReads(ts, x)
    ensures Expand(a, ts) == Expand(b, ts)
  {
    if ts != [] {
      ExpandAlike(a, b, x, ts[..|ts| - 1]);
      TokenAlike(a, b, x, ts[|ts| - 1]);
    }
  }

  /** The same arguments, marks, configuration and variables, but for the binding of `x` in the VM's scope. */
  ghost predicate SameBut(st: State, st': State, x: string) {
    && st'.applied == st.applied && st'.log == st.log && st'.died == st.died
    && st'.sets == st.sets && st'.scoped == st.scoped && st'.hit == st.hit
    && st'.vars.args == st.vars.args && st'.vars.global == st.vars.global
    && Alike(st.vars.local, st'.vars.local, x)
  }

  lemma VisibleAlike(st: State, st': State, x: string)
    requires SameBut(st, st', x)
    ensures Alike(Visible(st.vars), Visible(st'.vars), x)
  {
    var a, b := Visible(st.vars), Visible(st'.vars);
    forall y | y != x ensures (y in a <==> y in b) && (y in a ==> a[y] == b[y]) {
      AlikeAt(st.vars.local, st'.vars.local, x, y);
    }
  }

  lemma PutVarAlike(c: Context, st: State, st': State, x: string, k: string, value: string)
    requires SameBut(st, st', x)
    ensures SameBut(PutVar(c, st, k, value), PutVar(c, st', k, value), x)
  {
    var a, b := st.vars.local[k := value], st'.vars.local[k := value];
    forall y | y != x ensures (y in a <==> y in b) && (y in a ==> a[y] == b[y]) {
      AlikeAt(st.vars.local, st'.vars.local, x, y);
    }
  }

  lemma GiveAlike(c: Context, key: string, value: string, st: State, st': State, x: string)
    requires SameBut(st, st', x)
    ensures SameBut(Give(c, key, value, st), Give(c, key, value, st'), x)
  {
    if key == "name" {
      PutVarAlike(c, st, st', x, "NAME", value);
    } else if key == "owner" {
      PutOwnerAlike(c, value, st, st', x);
    }
  }

  lemma PutOwnerAlike(c: Context, value: string, st: State, st': State, x: string)
    requires SameBut(st, st', x)
    ensures SameBut(PutOwner(c, st, value), PutOwner(c, st', value), x)
  {
    var (user, group) := Split(value);
    PutVarAlike(c, st, st', x, "OWNER", user);
    if group.Some? {
      PutVarAlike(c, PutVar(c, st, "OWNER", user), PutVar(c, st', "OWNER", user), x, "GROUP", group.value);
    }
  }

  lemma {:induction false} GiveAllAlike(c: Context, key: string, values: seq<seq<Token>>, st: State, st': State,
                                        x: string)
    requires SameBut(st, st', x) && !TextsRead(values, x)
    ensures SameBut(GiveAll(c, key, values, st), GiveAll(c, key, values, st'), x)
  {
    if values != [] {
      var front, last := values[..|values| - 1], values[|values| - 1];
      GiveAllAlike(c, key, front, st, st', x);
      var b, b' := GiveAll(c, key, front, st), GiveAll(c, key, front, st');
      VisibleAlike(b, b', x);
      ExpandAlike(Visible(b.vars), Visible(b'.vars), x, last);
      var v := Expand(Visible(b.vars), last);
      if !b.died && v.Made? { GiveAlike(c, key, v.text, b, b', x); }
    }
  }

  lemma {:induction false} BindAlike(a: Scope, b: Scope, x: string, defs: seq<ArgDef>, args: seq<seq<Token>>, n: nat)
    requires Alike(a, b, x) && n <= |defs| && !TextsRead(args, x)
    requires forall i :: 0 <= i < |defs| ==> !TextReads(defs[i].default, x)
    ensures BindArgs(a, defs, args, n) == BindArgs(b, defs, args, n)
    decreases n
  {
    if n > 0 {
      BindAlike(a, b, x, defs, args, n - 1);
      ExpandAlike(a, b, x, if n - 1 < |args| then args[n - 1] else defs[n - 1].default);
    }
  }

  // ------------------------------------------------------- the whole evaluator

  ghost predicate Blind(c: Context, x: string) {
    !TemplatesRead(c.templates, x)
  }

  lemma {:induction false} ParamsAlike(c: Context, ps: seq<Param>, st: State, st': State, x: string)
    requires Marks(c, st.applied) && SameBut(st, st', x) && Blind(c, x) && !ParamsRead(ps, x)
    ensures SameBut(EvalParams(c, ps, st), EvalParams(c, ps, st'), x)
    decreases Room(c, st), 3, |ps|
  {
    if ps != [] {
      var front, last := ps[..|ps| - 1], ps[|ps| - 1];
      ParamsAlike(c, front, st, st', x);
      ParamAlike(c, last, EvalParams(c, front, st), EvalParams(c, front, st'), x);
    }
  }

  lemma {:induction false} ParamAlike(c: Context, p: Param, st: State, st': State, x: string)
    requires Marks(c, st.applied) && SameBut(st, st', x) && Blind(c, x) && !ParamReads(p, x)
    ensures SameBut(EvalParam(c, p, st), EvalParam(c, p, st'), x)
    decreases Room(c, st), 2, 0
  {
    if !st.died {
      match p
      case Assign(k, ts) =>
        VisibleAlike(st, st', x);
        ExpandAlike(Visible(st.vars), Visible(st'.vars), x, ts);
        var v := Expand(Visible(st.vars), ts);
        if v.Made? { PutVarAlike(c, st, st', x, k, v.text); }
      case Apply(targets) => TargetsAlike(c, targets, st, st', x);
      case Set(key, append, values) =>
        if key in LIST_KEYS && !append {
          var log := st.log + [Cleared(key)];
          GiveAllAlike(c, key, values, st.(log := log), st'.(log := log), x);
        } else {
          GiveAllAlike(c, key, values, st, st', x);
        }
    }
  }

  lemma {:induction false} TargetsAlike(c: Context, targets: seq<Target>, st: State, st': State, x: string)
    requires Marks(c, st.applied) && SameBut(st, st', x) && Blind(c, x)
    requires forall i :: 0 <= i < |targets| ==> !TargetReads(targets[i], x)
    ensures SameBut(ApplyAll(c, targets, st), ApplyAll(c, targets, st'), x)
    decreases Room(c, st), 1, |targets|
  {
    if targets != [] {
      var front, last := targets[..|targets| - 1], targets[|targets| - 1];
      TargetsAlike(c, front, st, st', x);
      TargetAlike(c, last, ApplyAll(c, front, st), ApplyAll(c, front, st'), x);
    }
  }

  lemma LeaveAlike(c: Context, target: Target, st: State, st': State, t: nat, x: string)
    requires Marks(c, st.applied) && SameBut(st, st', x) && Resolves(c, target, st, t) && Resolves(c, target, st', t)
    requires Marks(c, Entered(c, target, st, t).applied) && Marks(c, Entered(c, target, st', t).applied)
    requires SameBut(EvalParams(c, c.templates[t].params, Entered(c, target, st, t)),
                     EvalParams(c, c.templates[t].params, Entered(c, target, st', t)), x)
    ensures SameBut(ApplyOne(c, target, st), ApplyOne(c, target, st'), x)
  {
    EnteredMarks(c, target, st, t);
    EnteredMarks(c, target, st', t);
  }

  lemma ResolvesAlike(c: Context, target: Target, st: State, st': State, t: nat, x: string)
    requires Marks(c, st.applied) && SameBut(st, st', x) && Blind(c, x) && !TargetReads(target, x)
    requires Resolves(c, target, st, t)
    ensures Resolves(c, target, st', t) && SameBut(Entered(c, target, st, t), Entered(c, target, st', t), x)
    ensures !ParamsRead(c.templates[t].params, x)
  {
    var a, b, defs := Visible(st.vars), Visible(st'.vars), c.templates[t].argdefs;
    VisibleAlike(st, st', x);
    ExpandAlike(a, b, x, target.name);
    assert !TemplateReads(c.templates[t], x);
    BindAlike(a, b, x, defs, target.args, |defs|);
  }

  lemma UnresolvedAlike(c: Context, target: Target, st: State, st': State, x: string)
    requires Marks(c, st.applied) && SameBut(st, st', x) && Blind(c, x) && !TargetReads(target, x)
    requires forall t: nat :: !Resolves(c, target, st, t)
    ensures SameBut(ApplyOne(c, target, st), ApplyOne(c, target, st'), x)
  {
    var a, b := Visible(st.vars), Visible(st'.vars);
    VisibleAlike(st, st', x);
    ExpandAlike(a, b, x, target.name);
    var name := Expand(a, target.name);
    if !st.died && name.Made? && Find(c.templates, name.text).Some? {
      var t := Find(c.templates, name.text).value;
      var defs := c.templates[t].argdefs;
      assert !TemplateReads(c.templates[t], x) && !Resolves(c, target, st, t);
      BindAlike(a, b, x, defs, target.args, |defs|);
    }
  }

  lemma {:induction false} TargetAlike(c: Context, target: Target, st: State, st': State, x: string)
    requires Marks(c, st.applied) && SameBut(st, st', x) && Blind(c, x) && !TargetReads(target, x)
    ensures SameBut(ApplyOne(c, target, st), ApplyOne(c, target, st'), x)
    decreases Room(c, st), 0, 0
  {
    if t: nat :| Resolves(c, target, st, t) {
      ResolvesAlike(c, target, st, st', t, x);
      EnteredMarks(c, target, st, t);
      RoomForMarks(|c.templates|, st.applied, t);
      ParamsAlike(c, c.templates[t].params, Entered(c, target, st, t), Entered(c, target, st', t), x);
      LeaveAlike(c, target, st, st', t, x);
    } else {
      UnresolvedAlike(c, target, st, st', x);
    }
  }

  // ------------------------------------------------------------------ sections

  /** Neither the section nor any template reads the number. */
  ghost predicate IgnoresId(c: Context, s: Section) {
    Blind(c, ID) && !ParamsRead(s.params, ID)
  }

  lemma InitialAlike(global: Scope, s: Section, id: nat, id': nat)
    ensures SameBut(Initial(global, s, id), Initial(global, s, id'), ID)
  {
    var a, b := Initial(global, s, id).vars.local, Initial(global, s, id').vars.local;
    assert a - {ID} == b - {ID};
  }

  /** A section that does not read its number comes out the same whatever the number, but for the variable itself. */
  lemma NumberIrrelevant(c: Context, global: Scope, s: Section, id: nat, id': nat)
    requires IgnoresId(c, s)
    ensures SameBut(EvalSection(c, global, s, id), EvalSection(c, global, s, id'), ID)
  {
    InitialAlike(global, s, id, id');
    ParamsAlike(c, s.params, Initial(global, s, id), Initial(global, s, id'), ID);
  }

  /**
   So the order of the sections does not matter to it, nor what was loaded before: at any place in
   any file, from any table of numbers, it comes out the same.
   */
  lemma OrderIrrelevant(c: Context, global: Scope, t: Table, ss: seq<Section>, i: nat,
                        t': Table, ss': seq<Section>, j: nat)
    requires TableOk(t) && TableOk(t')
    requires i < |LoadAll(SectionEvaluation(c, global), t, ss).1|
    requires j < |LoadAll(SectionEvaluation(c, global), t', ss').1|
    requires ss[i] == ss'[j] && IgnoresId(c, ss[i])
    ensures SameBut(LoadAll(SectionEvaluation(c, global), t, ss).1[i],
                    LoadAll(SectionEvaluation(c, global), t', ss').1[j], ID)
  {
    var eval := SectionEvaluation(c, global);
    LoadAlone(eval, t, ss);
    LoadAlone(eval, t', ss');
    var (u, states) := LoadAll(eval, t, ss);
    var (u', states') := LoadAll(eval, t', ss');
    assert Alone(eval, u, ss[i], states[i]) && Alone(eval, u', ss'[j], states'[j]);
    NumberIrrelevant(c, global, ss[i], u.ids[ss[i].name], u'.ids[ss[i].name]);
  }

  /** A section that reads its number, and another one. */
  const READER: Section := Section("a", None, [Set("disk", true, [[Ref(ID)]])])
  const OTHER: Section := Section("b", None, [])

  lemma ReaderLog(c: Context, global: Scope, id: nat)
    ensures EvalSection(c, global, READER, id).log == [Given("disk", Show(id))]
    ensures !EvalSection(c, global, READER, id).died
  {
    var st := Initial(global, READER, id);
    var p, values := Set("disk", true, [[Ref(ID)]]), [[Ref(ID)]];
    InitialReadsId(global, id);
    assert [Ref(ID)][..0] == [];
    assert "" + Show(id) == Show(id);
    assert Expand(Visible(st.vars), [Ref(ID)]) == Made(Show(id));
    assert values[..0] == [];
    assert GiveAll(c, "disk", [], st) == st;
    assert GiveAll(c, "disk", values, st) == Give(c, "disk", Show(id), st);
    TakenAsDisk(c, Show(id), st);
    assert EvalParam(c, p, st) == Give(c, "disk", Show(id), st);
    assert READER.params == [p] && [p][..0] == [];
    assert EvalParams(c, [], st) == st;
    assert EvalParams(c, [p], st) == EvalParam(c, p, st);
  }

  lemma InitialReadsId(global: Scope, id: nat)
    ensures var vars := Initial(global, READER, id).vars; ID in Visible(vars) && Visible(vars)[ID] == Show(id)
  {
    assert ID != "GROUP" && ID != "NAME" by { assert |ID| == 2; }
  }

  lemma TakenAsDisk(c: Context, value: string, st: State)
    requires !st.died
    ensures Give(c, "disk", value, st) == st.(log := st.log + [Given("disk", value)])
  {
    assert "disk"[0] != "passthru"[0] && "disk"[0] != "bhyve_env"[0] && "disk"[0] != "bhyveload_env"[0];
    GiveList(c, "disk", value, st);
  }

  /** In the other order it gets another number, and so another value. */
  lemma OrderMatters(c: Context, global: Scope)
    ensures var eval, t := SectionEvaluation(c, global), Table(map[], 0);
      && LoadAll(eval, t, [READER, OTHER]).1 == [eval(READER, 0), eval(OTHER, 1)]
      && LoadAll(eval, t, [OTHER, READER]).1 == [eval(OTHER, 0), eval(READER, 1)]
      && eval(READER, 0).log == [Given("disk", Show(0))]
      && eval(READER, 1).log == [Given("disk", Show(1))]
      && Show(0) != Show(1)
  {
    var eval := SectionEvaluation(c, global);
    ReaderLog(c, global, 0);
    ReaderLog(c, global, 1);
    assert READER.name[0] != OTHER.name[0];
    assert !eval(OTHER, 0).died;
    TwoSections(eval, READER, OTHER);
    TwoSections(eval, OTHER, READER);
    ShowReadBack(0);
    ShowReadBack(1);
  }

  /** The numbers that two sections get in a first load, if the daemon survives the first. */
  lemma TwoSections(eval: Evaluation, a: Section, b: Section)
    requires a.name != b.name && !eval(a, 0).died
    ensures LoadAll(eval, Table(map[], 0), [a, b]).1 == [eval(a, 0), eval(b, 1)]
  {
    assert [a, b][..1] == [a] && [a][..0] == [];
    var t := Table(map[], 0);
    assert LoadAll(eval, t, []) == (t, []);
    var done := LoadAll(eval, t, [a]);
    assert done == LoadOne(eval, (t, []), a);
    assert done.1 == [eval(a, 0)] && done.0 == Table(map[][a.name := 0], 1);
    assert LoadAll(eval, t, [a, b]) == LoadOne(eval, done, b);
  }
}
