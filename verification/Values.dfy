/** What values a configuration can hold: whatever the templates do, each was taken by the parser of its key. */
module Values {
  import opened Evaluator

  /** A value that may stand under the key after what is recorded in `before`. */
  ghost predicate Lawful(c: Context, before: seq<Effect>, key: string, value: string) {
    && (key == "passthru" ==> forall i :: 0 <= i < |value| ==> value[i] in "0123456789/")
    && (key in {"bhyve_env", "bhyveload_env"} ==> exists i :: 0 <= i < |value| && value[i] == '=')
    && (key !in LIST_KEYS && key != "name" ==> c.allowed(before, key, value))
  }

  ghost predicate AllLawful(c: Context, log: seq<Effect>) {
    forall i :: 0 <= i < |log| && log[i].Given? ==> Lawful(c, log[..i], log[i].key, log[i].value)
  }

  lemma TakenLawful(c: Context, log: seq<Effect>, key: string, value: string)
    requires Takes(c, log, key, value)
    ensures Lawful(c, log, key, value)
  {
    if key == "passthru" {
      forall i | 0 <= i < |value| ensures value[i] in "0123456789/" {
        assert value[i] in value;
        DigitOrSlash(value[i]);
      }
    }
  }

  lemma DigitOrSlash(ch: char)
    requires ch == '/' || '0' <= ch <= '9'
    ensures ch in "0123456789/"
  {
    var all := "0123456789/";
    if ch == '/' {
      assert all[10] == ch;
    } else {
      assert all[ch as int - '0' as int] == ch;
    }
  }

  lemma Recorded(c: Context, log: seq<Effect>, e: Effect)
    requires AllLawful(c, log) && (e.Given? ==> Lawful(c, log, e.key, e.value))
    ensures AllLawful(c, log + [e])
  {
    var longer := log + [e];
    forall i | 0 <= i < |longer| && longer[i].Given?
      ensures Lawful(c, longer[..i], longer[i].key, longer[i].value)
    {
      assert longer[..i] == log[..i];
    }
    assert longer[..|log|] == log;
  }

  lemma GiveLawful(c: Context, key: string, value: string, st: State)
    requires AllLawful(c, st.log)
    ensures AllLawful(c, Give(c, key, value, st).log)
  {
    if Takes(c, st.log, key, value) {
      TakenLawful(c, st.log, key, value);
      Recorded(c, st.log, Given(key, value));
    }
  }

  lemma {:induction false} GiveAllLawful(c: Context, key: string, values: seq<seq<Token>>, st: State)
    requires AllLawful(c, st.log)
    ensures AllLawful(c, GiveAll(c, key, values, st).log)
  {
    if values != [] {
      var before := GiveAll(c, key, values[..|values| - 1], st);
      GiveAllLawful(c, key, values[..|values| - 1], st);
      var text := Expand(Visible(before.vars), values[|values| - 1]);
      if text.Made? { GiveLawful(c, key, text.text, before); }
    }
  }

  /** Every value that any evaluation records is lawful at its place. */
  lemma {:induction false} EvalLawful(c: Context, ps: seq<Param>, st: State)
    requires Marks(c, st.applied) && AllLawful(c, st.log)
    ensures AllLawful(c, EvalParams(c, ps, st).log)
    decreases Room(c, st), 3, |ps|
  {
    if ps != [] {
      EvalLawful(c, ps[..|ps| - 1], st);
      var before := EvalParams(c, ps[..|ps| - 1], st);
      ParamLawful(c, ps[|ps| - 1], before);
    }
  }

  lemma {:induction false} ParamLawful(c: Context, p: Param, st: State)
    requires Marks(c, st.applied) && AllLawful(c, st.log)
    ensures AllLawful(c, EvalParam(c, p, st).log)
    decreases Room(c, st), 2, 0
  {
    match p
    case Assign(_, _) =>
    case Apply(targets) => TargetsLawful(c, targets, st);
    case Set(key, append, values) =>
      var cleared := st.(log := st.log + [Cleared(key)]);
      Recorded(c, st.log, Cleared(key));
      GiveAllLawful(c, key, values, if key in LIST_KEYS && !append then cleared else st);
  }

  lemma {:induction false} TargetsLawful(c: Context, targets: seq<Target>, st: State)
    requires Marks(c, st.applied) && AllLawful(c, st.log)
    ensures AllLawful(c, ApplyAll(c, targets, st).log)
    decreases Room(c, st), 1, |targets|
  {
    if targets != [] {
      TargetsLawful(c, targets[..|targets| - 1], st);
      var before := ApplyAll(c, targets[..|targets| - 1], st);
      TargetLawful(c, targets[|targets| - 1], before);
    }
  }

  lemma {:induction false} TargetLawful(c: Context, target: Target, st: State)
    requires Marks(c, st.applied) && AllLawful(c, st.log)
    ensures AllLawful(c, ApplyOne(c, target, st).log)
    decreases Room(c, st), 0, 0
  {
    var env := Visible(st.vars);
    var name := Expand(env, target.name);
    if !st.died && name.Made? {
      var t := Find(c.templates, name.text);
      if t.Some? && t.value !in st.applied {
        var tp := c.templates[t.value];
        var args := BindArgs(env, tp.argdefs, target.args, |tp.argdefs|);
        if args.Some? {
          RoomForMarks(|c.templates|, st.applied, t.value);
          EvalLawful(c, tp.params,
            st.(applied := st.applied + [t.value], vars := st.vars.(args := args.value), scoped := true));
        }
      }
    }
  }
}
