/**
 How a VM section becomes a configuration: variables in three scopes, strings put together from
 pieces, and templates that are applied with arguments, to each other and to themselves.
 */
module Evaluator {
  import opened Options
  import Arith
  import Numbers

  // ----------------------------------------------------------------- variables

  type Scope = map<string, string>

  /** `struct variables`; a missing argument scope and an empty one are alike. */
  datatype Variables = Variables(args: Scope, local: Scope, global: Scope)

  /** `get_var`: arguments first, then the scope of the VM, then the global one. */
  function GetVar(vars: Variables, k: string): Option<string> {
    if k in vars.args then Some(vars.args[k])
    else if k in vars.local then Some(vars.local[k])
    else if k in vars.global then Some(vars.global[k])
    else None
  }

  /** `set_var` as it is meant: the name is dropped from the arguments and bound in the scope of the VM. */
  function SetVar(vars: Variables, k: string, value: string): Variables {
    vars.(args := vars.args - {k}, local := vars.local[k := value])
  }

  /** All that is visible. */
  function Visible(vars: Variables): Scope {
    vars.global + vars.local + vars.args
  }

  lemma GetVarIsVisible(vars: Variables, k: string)
    ensures GetVar(vars, k) == if k in Visible(vars) then Some(Visible(vars)[k]) else None
  {
  }

  /** An assignment is seen at once, and nothing else changes. */
  lemma SetVarSeen(vars: Variables, k: string, value: string)
    ensures Visible(SetVar(vars, k, value)) == Visible(vars)[k := value]
  {
  }

  // ------------------------------------------------------------------- strings

  datatype Token = Literal(text: string) | Ref(name: string) | Calculation(exp: Arith.Exp)

  /** A string, no string, or no daemon any more. */
  datatype Outcome = Made(text: string) | Undefined | Died

  function ExpandToken(env: Scope, t: Token): Outcome {
    match t
    case Literal(s) => Made(s)
    case Ref(x) => if x in env then Made(env[x]) else Undefined
    case Calculation(e) =>
      match Arith.Calc(env, e)
      case Value(n) => Made(Numbers.Show(n))
      case Refused => Undefined
      case Trapped => Died
  }

  /** `token_to_string`. */
  function Expand(env: Scope, ts: seq<Token>): Outcome {
    if ts == [] then Made("")
    else
      var before := Expand(env, ts[..|ts| - 1]);
      if !before.Made? then before
      else
        var last := ExpandToken(env, ts[|ts| - 1]);
        if last.Made? then Made(before.text + last.text) else last
  }

  method TokenToString(env: Scope, ts: seq<Token>) returns (r: Outcome)
    ensures r == Expand(env, ts)
  {
    var s := "";
    for i := 0 to |ts|
      invariant Expand(env, ts[..i]) == Made(s)
    {
      assert ts[..i + 1][..i] == ts[..i];
      match ts[i] {
        case Literal(text) => s := s + text;
        case Ref(x) =>
          if x !in env {
            ExpandStops(env, ts, i + 1);
            return Undefined;
          }
          s := s + env[x];
        case Calculation(e) =>
          var v := Arith.Calc(env, e);
          match v {
            case Value(n) => s := s + Numbers.Show(n);
            case Refused =>
              ExpandStops(env, ts, i + 1);
              return Undefined;
            case Trapped =>
              ExpandStops(env, ts, i + 1);
              return Died;
          }
      }
    }
    assert ts[..|ts|] == ts;
    return Made(s);
  }

  /** What fails early fails in full. */
  lemma {:induction false} ExpandStops(env: Scope, ts: seq<Token>, i: nat)
    requires i <= |ts| && !Expand(env, ts[..i]).Made?
    ensures Expand(env, ts) == Expand(env, ts[..i])
    decreases |ts|
  {
    if i == |ts| {
      assert ts[..i] == ts;
    } else {
      assert ts[..|ts| - 1][..i] == ts[..i];
      ExpandStops(env, ts[..|ts| - 1], i);
    }
  }

  /** The pieces of a string in order; the first that fails decides. */
  lemma {:induction false} ExpandConcat(env: Scope, a: seq<Token>, b: seq<Token>)
    ensures Expand(env, a + b) ==
            var x, y := Expand(env, a), Expand(env, b);
            if !x.Made? then x else if !y.Made? then y else Made(x.text + y.text)
    decreases |b|
  {
    if b == [] {
      assert a + b == a;
      assert Expand(env, a).Made? ==> Expand(env, a).text + "" == Expand(env, a).text;
    } else {
      var front, last := b[..|b| - 1], b[|b| - 1];
      ExpandConcat(env, a, front);
      assert (a + b)[..|a + b| - 1] == a + front && (a + b)[|a + b| - 1] == last;
      var x, y, z := Expand(env, a), Expand(env, front), ExpandToken(env, last);
      if x.Made? && y.Made? && z.Made? { assert (x.text + y.text) + z.text == x.text + (y.text + z.text); }
    }
  }

  /** A literal is its text, a reference what is found under the name, and an expression its printed value. */
  lemma ExpandSingle(vars: Variables, t: Token)
    ensures Expand(Visible(vars), [t]) ==
            match t
            case Literal(text) => Made(text)
            case Ref(x) => (var v := GetVar(vars, x); if v.Some? then Made(v.value) else Undefined)
            case Calculation(e) =>
              match Arith.Calc(Visible(vars), e)
              case Value(n) => Made(Numbers.Show(n))
              case Refused => Undefined
              case Trapped => Died
  {
    var env, ts := Visible(vars), [t];
    assert ts[..0] == [];
    var last := ExpandToken(env, t);
    assert last.Made? ==> "" + last.text == last.text;
  }

  // ----------------------------------------------------------------- templates

  /** The target of an `.apply`: the pieces of the name and of each argument. */
  datatype Target = Target(name: seq<Token>, args: seq<seq<Token>>)

  datatype Param =
    | Assign(key: string, value: seq<Token>)
    | Apply(targets: seq<Target>)
    | Set(key: string, append: bool, values: seq<seq<Token>>)

  datatype ArgDef = ArgDef(name: string, default: seq<Token>)

  datatype Template = Template(name: string, argdefs: seq<ArgDef>, params: seq<Param>)

  /** What is done to the configuration: the list of a key is emptied, or a key is given a value. */
  datatype Effect = Cleared(key: string) | Given(key: string, value: string)

  /** The keys that hold lists, which `=` empties and `+=` does not. */
  const LIST_KEYS: set<string> := {"bhyve_env", "bhyveload_env", "disk", "iso", "network", "passthru"}

  /**
   The state of one evaluation: `applied` holds the marked templates, oldest first, `log` what was
   done to the configuration, and `sets` the assignments made, oldest first, since the VM's own scope
   was `origin`.  `scoped` says that an argument scope exists, even an empty one, which is so inside
   of every template body, and `hit` that an assignment was reached there.  With `died` set the
   daemon is gone.
   */
  datatype State = State(vars: Variables, applied: seq<nat>, log: seq<Effect>, sets: seq<(string, string)>,
                         origin: Scope, scoped: bool, hit: bool, died: bool)

  /**
   The templates; whether the parser of a key that holds no list takes a value, which for `owner`
   depends on the account database and on what the configuration already holds; and whether
   `del_var` works as it is meant.  As it is written it removes and frees a node on the stack, which
   ends the daemon.
   */
  datatype Context = Context(templates: seq<Template>, allowed: (seq<Effect>, string, string) -> bool,
                             repaired: bool)

  /** A scope after assignments; of several to one name the last counts. */
  function Folded(scope: Scope, sets: seq<(string, string)>): Scope {
    if sets == [] then scope else Folded(scope, sets[..|sets| - 1])[sets[|sets| - 1].0 := sets[|sets| - 1].1]
  }

  lemma FoldedNext(scope: Scope, sets: seq<(string, string)>, k: string, value: string)
    ensures Folded(scope, sets + [(k, value)]) == Folded(scope, sets)[k := value]
  {
    assert (sets + [(k, value)])[..|sets|] == sets;
  }

  /** The VM's scope is what the assignments made of it. */
  ghost predicate Recorded(st: State) {
    st.vars.local == Folded(st.origin, st.sets)
  }

  /** Marks are only added; argument bindings are only dropped; a variable of the VM stays a variable of the VM. */
  ghost predicate Step(st: State, r: State) {
    && st.applied <= r.applied && st.sets <= r.sets && r.scoped == st.scoped
    && r.vars.global == st.vars.global
    && (forall k :: k in r.vars.args ==> k in st.vars.args && r.vars.args[k] == st.vars.args[k])
    && st.vars.local.Keys <= r.vars.local.Keys
    && r.origin == st.origin && (Recorded(st) ==> Recorded(r))
    && (st.hit ==> r.hit) && (st.died ==> r.died)
  }

  /** An assignment: `set_var`, which calls `del_var` when there is an argument scope. */
  function PutVar(c: Context, st: State, k: string, value: string): (r: State)
    ensures r.applied == st.applied && Step(st, r)
  {
    FoldedNext(st.origin, st.sets, k, value);
    if st.scoped && !c.repaired then st.(hit := true, died := true)
    else st.(vars := SetVar(st.vars, k, value), sets := st.sets + [(k, value)], hit := st.hit || st.scoped)
  }

  function Find(ts: seq<Template>, name: string): (r: Option<nat>)
    ensures r.Some? ==> r.value < |ts| && ts[r.value].name == name
    ensures r.Some? ==> forall i :: 0 <= i < r.value ==> ts[i].name != name
    ensures r.None? ==> forall i :: 0 <= i < |ts| ==> ts[i].name != name
  {
    if ts == [] then None
    else if ts[0].name == name then Some(0)
    else
      var r := Find(ts[1..], name);
      if r.None? then None else Some(r.value + 1)
  }

  function ArgText(env: Scope, defs: seq<ArgDef>, args: seq<seq<Token>>, i: nat): Outcome
    requires i < |defs|
  {
    Expand(env, if i < |args| then args[i] else defs[i].default)
  }

  /** The arguments, evaluated where the template is applied; `None` when the daemon dies on one. */
  function BindArgs(env: Scope, defs: seq<ArgDef>, args: seq<seq<Token>>, n: nat): Option<Scope>
    requires n <= |defs|
  {
    if n == 0 then Some(map[])
    else
      var before := BindArgs(env, defs, args, n - 1);
      var a := ArgText(env, defs, args, n - 1);
      if before.None? || a.Died? then None
      else Some(before.value[defs[n - 1].name := if a.Made? then a.text else ""])
  }

  function Split(s: string): (string, Option<string>) {
    if s == [] then (s, None)
    else if s[0] == ':' then ([], Some(s[1..]))
    else
      var (user, group) := Split(s[1..]);
      ([s[0]] + user, group)
  }

  /** Of the keys that hold lists, some refuse what is not written as they want it. */
  predicate ListTakes(key: string, value: string) {
    if key == "passthru" then forall ch <- value :: ch == '/' || '0' <= ch <= '9'
    else if key == "bhyve_env" || key == "bhyveload_env" then '=' in value
    else true
  }

  predicate Takes(c: Context, log: seq<Effect>, key: string, value: string) {
    if key == "name" then true
    else if key in LIST_KEYS then ListTakes(key, value)
    else c.allowed(log, key, value)
  }

  /**
   A value goes to the parser of its key, which takes it or leaves all as it is; `name` and `owner`
   also set variables.
   */
  function Give(c: Context, key: string, value: string, st: State): (r: State)
    ensures r.applied == st.applied && Step(st, r)
  {
    if !Takes(c, st.log, key, value) then st
    else
      var set_ :=
        if key == "name" then PutVar(c, st, "NAME", value)
        else if key == "owner" then PutOwner(c, st, value)
        else st;
      if set_.died then set_ else set_.(log := set_.log + [Given(key, value)])
  }

  function PutOwner(c: Context, st: State, value: string): (r: State)
    ensures r.applied == st.applied && Step(st, r)
  {
    var (user, group) := Split(value);
    var owned := PutVar(c, st, "OWNER", user);
    if owned.died || group.None? then owned else PutVar(c, owned, "GROUP", group.value)
  }

  function GiveNext(c: Context, key: string, value: seq<Token>, st: State): (r: State)
    ensures r.applied == st.applied && Step(st, r)
  {
    match Expand(Visible(st.vars), value)
    case Made(s) => Give(c, key, s, st)
    case Undefined => st
    case Died => st.(died := true)
  }

  function GiveAll(c: Context, key: string, values: seq<seq<Token>>, st: State): (r: State)
    ensures r.applied == st.applied && Step(st, r)
  {
    if values == [] then st
    else
      var before := GiveAll(c, key, values[..|values| - 1], st);
      if before.died then before else GiveNext(c, key, values[|values| - 1], before)
  }

  /** The marks: each template once, and templates only. */
  predicate Marks(c: Context, applied: seq<nat>) {
    && (forall i :: 0 <= i < |applied| ==> applied[i] < |c.templates|)
    && (forall i, j :: 0 <= i < j < |applied| ==> applied[i] != applied[j])
  }

  lemma {:induction false} RoomForMarks(n: nat, applied: seq<nat>, t: nat)
    requires forall i :: 0 <= i < |applied| ==> applied[i] < n
    requires forall i, j :: 0 <= i < j < |applied| ==> applied[i] != applied[j]
    requires t < n && t !in applied
    ensures |applied| < n
  {
    var some := Elements(applied);
    ElementsSize(applied);
    assert some <= Below(n) - {t};
    SubsetSize(some, Below(n) - {t});
  }

  ghost function Below(n: nat): (s: set<nat>)
    ensures |s| == n && forall i: nat :: i in s <==> i < n
  {
    if n == 0 then {} else Below(n - 1) + {n - 1}
  }

  ghost function Elements(xs: seq<nat>): set<nat> {
    set x | x in xs
  }

  lemma {:induction false} ElementsSize(xs: seq<nat>)
    requires forall i, j :: 0 <= i < j < |xs| ==> xs[i] != xs[j]
    ensures |Elements(xs)| == |xs|
  {
    if xs == [] {
      assert Elements(xs) == {};
    } else {
      var front, last := xs[..|xs| - 1], xs[|xs| - 1];
      assert forall i :: 0 <= i < |front| ==> front[i] == xs[i];
      ElementsSize(front);
      assert xs == front + [last];
      assert Elements(xs) == Elements(front) + {last} && last !in Elements(front);
    }
  }

  lemma {:induction false} SubsetSize<T>(a: set<T>, b: set<T>)
    requires a <= b
    ensures |a| <= |b|
  {
    if a != {} {
      var x :| x in a;
      SubsetSize(a - {x}, b - {x});
    }
  }

  /** How many templates are not marked. */
  function Room(c: Context, st: State): nat {
    if |st.applied| <= |c.templates| then |c.templates| - |st.applied| else 0
  }

  /** `vm_conf_set_params`. */
  function EvalParams(c: Context, ps: seq<Param>, st: State): (r: State)
    requires Marks(c, st.applied)
    ensures Marks(c, r.applied) && Step(st, r)
    decreases Room(c, st), 3, |ps|
  {
    if ps == [] then st
    else
      var before := EvalParams(c, ps[..|ps| - 1], st);
      EvalParam(c, ps[|ps| - 1], before)
  }

  function EvalParam(c: Context, p: Param, st: State): (r: State)
    requires Marks(c, st.applied)
    ensures Marks(c, r.applied) && Step(st, r)
    decreases Room(c, st), 2, 0
  {
    if st.died then st
    else
      match p
      case Assign(k, ts) =>
        (match Expand(Visible(st.vars), ts)
         case Made(s) => PutVar(c, st, k, s)
         case Undefined => st
         case Died => st.(died := true))
      case Apply(targets) => ApplyAll(c, targets, st)
      case Set(key, append, values) =>
        GiveAll(c, key, values, if key in LIST_KEYS && !append then st.(log := st.log + [Cleared(key)]) else st)
  }

  function ApplyAll(c: Context, targets: seq<Target>, st: State): (r: State)
    requires Marks(c, st.applied)
    ensures Marks(c, r.applied) && Step(st, r) && r.vars.args == st.vars.args
    decreases Room(c, st), 1, |targets|
  {
    if targets == [] then st
    else
      var before := ApplyAll(c, targets[..|targets| - 1], st);
      ApplyOne(c, targets[|targets| - 1], before)
  }

  /** `parse_apply`: the template is marked before its body is evaluated. */
  function ApplyOne(c: Context, target: Target, st: State): (r: State)
    requires Marks(c, st.applied)
    ensures Marks(c, r.applied) && Step(st, r) && r.vars.args == st.vars.args
    decreases Room(c, st), 0, 0
  {
    if st.died then st
    else
      var env := Visible(st.vars);
      var name := Expand(env, target.name);
      if name.Died? then st.(died := true)
      else if name.Undefined? then st
      else
        var t := Find(c.templates, name.text);
        if t.None? || t.value in st.applied then st
        else
          var tp := c.templates[t.value];
          var args := BindArgs(env, tp.argdefs, target.args, |tp.argdefs|);
          if args.None? then st.(died := true)
          else
            RoomForMarks(|c.templates|, st.applied, t.value);
            var inner := st.(applied := st.applied + [t.value], vars := st.vars.(args := args.value), scoped := true);
            var r := EvalParams(c, tp.params, inner);
            r.(vars := r.vars.(args := st.vars.args), scoped := st.scoped)
  }
}
