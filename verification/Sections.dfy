/** The VM sections of a configuration, one after the other, and the numbers their names are given. */
module Sections {
  import opened Options
  import opened Numbers
  import opened Evaluator

  // ------------------------------------------------------------------- numbers

  /** The list of names and numbers, which outlives every load, and the next number. */
  datatype Table = Table(ids: map<string, nat>, next: nat)

  ghost predicate TableOk(t: Table) {
    && (forall n :: n in t.ids ==> t.ids[n] < t.next)
    && (forall m, n :: m in t.ids && n in t.ids && m != n ==> t.ids[m] != t.ids[n])
  }

  /** `get_id`. */
  function GetId(t: Table, name: string): (Table, nat) {
    if name in t.ids then (t, t.ids[name]) else (Table(t.ids[name := t.next], t.next + 1), t.next)
  }

  function GetIds(t: Table, names: seq<string>): Table {
    if names == [] then t else GetId(GetIds(t, names[..|names| - 1]), names[|names| - 1]).0
  }

  /** Whatever names are asked for, over all loads: a name keeps its number, and no two names share one. */
  lemma {:induction false} IdsStable(t: Table, names: seq<string>)
    requires TableOk(t)
    ensures TableOk(GetIds(t, names))
    ensures forall n :: n in t.ids ==> n in GetIds(t, names).ids && GetIds(t, names).ids[n] == t.ids[n]
    ensures forall n <- names :: n in GetIds(t, names).ids
    ensures forall n :: n in GetIds(t, names).ids ==> n in t.ids || n in names
  {
    if names != [] {
      var front := names[..|names| - 1];
      IdsStable(t, front);
      assert names == front + [names[|names| - 1]];
    }
  }

  /** `id_list`: the newest entry is in front. */
  class IdList {
    var entries: seq<(string, nat)>
    var lastid: nat

    ghost function View(): Table
      reads this
    {
      Table(Lookup(entries), lastid)
    }

    constructor ()
      ensures View() == Table(map[], 0)
    {
      entries, lastid := [], 0;
    }

    method Obtain(name: string) returns (id: nat)
      modifies this
      ensures (View(), id) == GetId(old(View()), name)
    {
      var i := 0;
      while i < |entries|
        invariant 0 <= i <= |entries|
        invariant forall j :: 0 <= j < i ==> entries[j].0 != name
      {
        if entries[i].0 == name {
          LookupFirst(entries, i);
          return entries[i].1;
        }
        i := i + 1;
      }
      LookupAbsent(entries, name);
      id := lastid;
      entries := [(name, lastid)] + entries;
      lastid := lastid + 1;
      assert entries[1..] == old(entries);
    }
  }

  function Lookup(entries: seq<(string, nat)>): map<string, nat> {
    if entries == [] then map[] else Lookup(entries[1..])[entries[0].0 := entries[0].1]
  }

  lemma {:induction false} LookupFirst(entries: seq<(string, nat)>, i: nat)
    requires i < |entries| && forall j :: 0 <= j < i ==> entries[j].0 != entries[i].0
    ensures entries[i].0 in Lookup(entries) && Lookup(entries)[entries[i].0] == entries[i].1
    decreases i
  {
    if i > 0 {
      assert entries[1..][i - 1] == entries[i];
      LookupFirst(entries[1..], i - 1);
    }
  }

  lemma {:induction false} LookupAbsent(entries: seq<(string, nat)>, name: string)
    requires forall j :: 0 <= j < |entries| ==> entries[j].0 != name
    ensures name !in Lookup(entries)
  {
    if entries != [] { LookupAbsent(entries[1..], name); }
  }

  // ------------------------------------------------------------------ sections

  /** A VM section; `owner` is the account of the file's owner, if there is one. */
  datatype Section = Section(name: string, owner: Option<string>, params: seq<Param>)

  function InitialScope(global: Scope, s: Section, id: nat): Variables {
    var vars := Variables(map[], map["NAME" := s.name, "ID" := Show(id)], global);
    SetVar(if s.owner.Some? then SetVar(vars, "OWNER", s.owner.value) else vars, "GROUP", "")
  }

  function Initial(global: Scope, s: Section, id: nat): State {
    var start := InitialScope(global, s, id);
    State(start, [], [], [], start.local, false, false, false)
  }

  /** What a section starts with. */
  lemma InitialSees(global: Scope, s: Section, id: nat, x: string)
    ensures var st := Initial(global, s, id);
      && !st.died && !st.scoped && st.applied == [] && st.log == []
      && GetVar(st.vars, x) ==
         if x == "GROUP" then Some("")
         else if x == "OWNER" && s.owner.Some? then s.owner
         else if x == "NAME" then Some(s.name)
         else if x == "ID" then Some(Show(id))
         else if x in global then Some(global[x])
         else None
  {
    assert "GROUP"[0] == 'G' && "OWNER"[0] == 'O' && "NAME"[0] == 'N' && "ID"[0] == 'I';
  }

  /** One section, with no template marked. */
  function EvalSection(c: Context, global: Scope, s: Section, id: nat): State {
    EvalParams(c, s.params, Initial(global, s, id))
  }

  /** How the state of a section follows from the section and its number. */
  type Evaluation = (Section, nat) -> State

  /** The evaluation of this program, under given templates and global variables. */
  function SectionEvaluation(c: Context, global: Scope): Evaluation {
    (s: Section, id: nat) => EvalSection(c, global, s, id)
  }

  /** The next section, unless the daemon has died. */
  function LoadOne(eval: Evaluation, done: (Table, seq<State>), s: Section): (Table, seq<State>) {
    var (t, states) := done;
    if states != [] && states[|states| - 1].died then done
    else
      var (t', id) := GetId(t, s.name);
      (t', states + [eval(s, id)])
  }

  /** The sections in order. */
  function LoadAll(eval: Evaluation, t: Table, ss: seq<Section>): (r: (Table, seq<State>))
    ensures |r.1| <= |ss|
  {
    if ss == [] then (t, []) else LoadOne(eval, LoadAll(eval, t, ss[..|ss| - 1]), ss[|ss| - 1])
  }

  ghost predicate Extends(t: Table, t': Table) {
    forall n :: n in t.ids ==> n in t'.ids && t'.ids[n] == t.ids[n]
  }

  /** The state is that of the section on its own, with the number the table holds for its name. */
  ghost predicate Alone(eval: Evaluation, t: Table, s: Section, st: State) {
    s.name in t.ids && st == eval(s, t.ids[s.name])
  }

  /** A section is evaluated as if it were alone, whatever came before it. */
  lemma {:induction false} LoadAlone(eval: Evaluation, t: Table, ss: seq<Section>)
    requires TableOk(t)
    ensures var (t', states) := LoadAll(eval, t, ss);
      TableOk(t') && Extends(t, t') && AllAlone(eval, t', ss, states)
    decreases |ss|
  {
    if ss != [] {
      var front, last := ss[..|ss| - 1], ss[|ss| - 1];
      LoadAlone(eval, t, front);
      LoadEnds(eval, t, front);
      var (t', before) := LoadAll(eval, t, front);
      OneAlone(eval, t', front, before, last);
      assert front + [last] == ss;
    }
  }

  lemma OneAlone(eval: Evaluation, t: Table, ss: seq<Section>, states: seq<State>, s: Section)
    requires TableOk(t) && AllAlone(eval, t, ss, states) && Ends(states, |ss|)
    ensures var (t', states') := LoadOne(eval, (t, states), s);
      TableOk(t') && Extends(t, t') && AllAlone(eval, t', ss + [s], states')
  {
    if states == [] || !states[|states| - 1].died {
      GetIdKeeps(t, s.name);
      var (t', id) := GetId(t, s.name);
      AloneNext(eval, t, t', ss, states, s, eval(s, id));
    }
  }

  ghost predicate AllAlone(eval: Evaluation, t: Table, ss: seq<Section>, states: seq<State>) {
    |states| <= |ss| && forall i :: 0 <= i < |states| ==> Alone(eval, t, ss[i], states[i])
  }

  lemma AloneNext(eval: Evaluation, t: Table, t': Table, ss: seq<Section>, states: seq<State>, s: Section, st: State)
    requires AllAlone(eval, t, ss, states) && Extends(t, t') && Alone(eval, t', s, st)
    requires |states| == |ss|
    ensures AllAlone(eval, t', ss + [s], states + [st])
  {
    forall i | 0 <= i < |states| ensures Alone(eval, t', ss[i], states[i]) {
      assert Alone(eval, t, ss[i], states[i]);
    }
  }

  lemma GetIdKeeps(t: Table, name: string)
    requires TableOk(t)
    ensures var (t', id) := GetId(t, name); TableOk(t') && Extends(t, t') && name in t'.ids && t'.ids[name] == id
  {
  }

  /** Evaluation ends early only at a section on which the daemon died. */
  ghost predicate Ends(states: seq<State>, n: nat) {
    && |states| <= n
    && (|states| < n ==> states != [] && states[|states| - 1].died)
    && (forall i :: 0 <= i < |states| - 1 ==> !states[i].died)
  }

  lemma {:induction false} LoadEnds(eval: Evaluation, t: Table, ss: seq<Section>)
    ensures Ends(LoadAll(eval, t, ss).1, |ss|)
    decreases |ss|
  {
    if ss != [] { LoadEnds(eval, t, ss[..|ss| - 1]); }
  }

  lemma EndsAlike(a: seq<State>, b: seq<State>, n: nat)
    requires Ends(a, n) && Ends(b, n)
    requires forall i :: 0 <= i < |a| && i < |b| ==> a[i] == b[i]
    ensures a == b
  {
    if a != [] && |a| < n && |a| <= |b| { assert a[|a| - 1] == b[|a| - 1]; }
    if b != [] && |b| < n && |b| <= |a| { assert a[|b| - 1] == b[|b| - 1]; }
  }

  /**
   Between any two loads, whatever the files and the numbers given before, a section differs at most
   by its number; and from one table of numbers it has the same one in both if the table has it.
   */
  lemma OnlyTheNumberMatters(c: Context, global: Scope, t: Table, ss: seq<Section>, i: nat,
                             t': Table, ss': seq<Section>, j: nat)
    requires TableOk(t) && TableOk(t')
    requires i < |LoadAll(SectionEvaluation(c, global), t, ss).1|
    requires j < |LoadAll(SectionEvaluation(c, global), t', ss').1| && ss[i] == ss'[j]
    ensures var (u, states) := LoadAll(SectionEvaluation(c, global), t, ss);
      var (u', states') := LoadAll(SectionEvaluation(c, global), t', ss');
      var name := ss[i].name;
      && name in u.ids && name in u'.ids && states[i] == EvalSection(c, global, ss[i], u.ids[name])
      && (u.ids[name] == u'.ids[name] ==> states'[j] == states[i])
      && (t == t' && name in t.ids ==> u.ids[name] == u'.ids[name])
  {
    var eval := SectionEvaluation(c, global);
    LoadAlone(eval, t, ss);
    LoadAlone(eval, t', ss');
    assert Alone(eval, LoadAll(eval, t, ss).0, ss[i], LoadAll(eval, t, ss).1[i]);
    assert Alone(eval, LoadAll(eval, t', ss').0, ss'[j], LoadAll(eval, t', ss').1[j]);
  }

  /** Loading the same file again gives the same configurations. */
  lemma ReloadSame(c: Context, global: Scope, t: Table, ss: seq<Section>)
    requires TableOk(t)
    ensures var eval := SectionEvaluation(c, global);
      var first := LoadAll(eval, t, ss); LoadAll(eval, first.0, ss).1 == first.1
  {
    var eval := SectionEvaluation(c, global);
    var (t1, first) := LoadAll(eval, t, ss);
    var (t2, again) := LoadAll(eval, t1, ss);
    LoadAlone(eval, t, ss);
    LoadAlone(eval, t1, ss);
    forall i | 0 <= i < |first| && i < |again| ensures first[i] == again[i] {
      assert Alone(eval, t1, ss[i], first[i]) && Alone(eval, t2, ss[i], again[i]);
    }
    LoadEnds(eval, t, ss);
    LoadEnds(eval, t1, ss);
    EndsAlike(first, again, |ss|);
  }

  // ---------------------------------------------------------------- list values

  function After(before: seq<string>, e: Effect, key: string): seq<string> {
    if e.key != key then before else if e.Cleared? then [] else before + [e.value]
  }

  /** What a list key holds after the effects of a log. */
  function Contents(log: seq<Effect>, key: string): seq<string> {
    if log == [] then [] else After(Contents(log[..|log| - 1], key), log[|log| - 1], key)
  }

  lemma ContentsNext(log: seq<Effect>, e: Effect, key: string)
    ensures Contents(log + [e], key) == After(Contents(log, key), e, key)
  {
    assert (log + [e])[..|log|] == log;
  }

  /** The values that can be made and that the key takes, in order. */
  function Texts(env: Scope, key: string, values: seq<seq<Token>>): seq<string> {
    if values == [] then []
    else
      var before := Texts(env, key, values[..|values| - 1]);
      var v := Expand(env, values[|values| - 1]);
      if v.Made? && ListTakes(key, v.text) then before + [v.text] else before
  }

  lemma GiveList(c: Context, key: string, value: string, st: State)
    requires key in LIST_KEYS && !st.died
    ensures Give(c, key, value, st) == if ListTakes(key, value) then st.(log := st.log + [Given(key, value)]) else st
  {
    assert key[0] != 'o';
    assert key != "name" by { if key[0] == 'n' { assert key[2] == 't'; } }
  }

  lemma {:induction false} GivenContents(c: Context, key: string, values: seq<seq<Token>>, st: State, k: string)
    requires key in LIST_KEYS && !st.died && !GiveAll(c, key, values, st).died
    ensures GiveAll(c, key, values, st).vars == st.vars
    ensures Contents(GiveAll(c, key, values, st).log, k) ==
            Contents(st.log, k) + TextsFor(Visible(st.vars), key, values, k == key)
  {
    if values != [] {
      var front, last := values[..|values| - 1], values[|values| - 1];
      GivenContents(c, key, front, st, k);
      GivenOne(c, key, last, GiveAll(c, key, front, st), k);
      TextsNext(Contents(st.log, k), Visible(st.vars), key, values, k == key);
    }
  }

  /** The same, or none where another key is meant. */
  function TextsFor(env: Scope, key: string, values: seq<seq<Token>>, mine: bool): seq<string> {
    if mine then Texts(env, key, values) else []
  }

  function TextFor(env: Scope, key: string, value: seq<Token>, mine: bool): seq<string> {
    var v := Expand(env, value);
    if mine && v.Made? && ListTakes(key, v.text) then [v.text] else []
  }

  lemma TextsNext(before: seq<string>, env: Scope, key: string, values: seq<seq<Token>>, mine: bool)
    requires values != []
    ensures before + TextsFor(env, key, values, mine) ==
            before + TextsFor(env, key, values[..|values| - 1], mine) + TextFor(env, key, values[|values| - 1], mine)
  {
  }

  lemma GivenOne(c: Context, key: string, value: seq<Token>, st: State, k: string)
    requires key in LIST_KEYS && !st.died
    ensures var r := GiveNext(c, key, value, st);
      && r.vars == st.vars
      && (!r.died ==> Contents(r.log, k) == Contents(st.log, k) + TextFor(Visible(st.vars), key, value, k == key))
  {
    var v := Expand(Visible(st.vars), value);
    if v.Made? {
      GiveList(c, key, v.text, st);
      assert Contents(st.log, k) + [] == Contents(st.log, k);
      ContentsNext(st.log, Given(key, v.text), k);
    }
  }

  /**
   `=` replaces what a list key holds, `+=` adds to it; values that cannot be made or that the key
   does not take are skipped, and other keys are kept.
   */
  lemma ListValues(c: Context, key: string, append: bool, values: seq<seq<Token>>, st: State, k: string)
    requires Marks(c, st.applied) && key in LIST_KEYS && !st.died && !EvalParam(c, Set(key, append, values), st).died
    ensures Contents(EvalParam(c, Set(key, append, values), st).log, k) ==
            if k != key then Contents(st.log, k)
            else (if append then Contents(st.log, k) else []) + Texts(Visible(st.vars), key, values)
  {
    if append {
      GivenContents(c, key, values, st, k);
    } else {
      ContentsNext(st.log, Cleared(key), k);
      GivenContents(c, key, values, st.(log := st.log + [Cleared(key)]), k);
    }
  }
}
