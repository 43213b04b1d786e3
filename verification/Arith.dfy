/**
 Arithmetic in configuration files: the grammar of expressions, the trees it builds and what
 they evaluate to.  No precedence is declared, so the parser generator always shifts and a chain
 of operators nests to the right.
 */
module Arith {
  import opened Options
  import opened Numbers

  datatype Op = Add | Sub | Mul | Div | Mod

  /** `struct cfexpr`. */
  datatype Exp = Num(text: string) | Var(name: string) | Bin(op: Op, left: Exp, right: Exp) | Neg(operand: Exp)

  // ------------------------------------------------------------------- grammar

  datatype Tok = TNum(text: string) | TVar(name: string) | TOp(op: Op) | LParen | RParen

  /** The sentences of the grammar, one constructor a production; a chain is read from the left. */
  datatype Chain = One(atom: Atom) | Cons(atom: Atom, op: Op, rest: Chain)
  datatype Atom =
    | ANum(text: string) | AVar(name: string) | Paren(inner: Chain)
    | NegNum(text: string) | NegVar(name: string) | NegParen(inner: Chain)

  const MINUS: Tok := TOp(Sub)

  function Flatten(c: Chain): (ts: seq<Tok>)
    ensures ts != []
  {
    match c
    case One(a) => FlattenAtom(a)
    case Cons(a, op, rest) => FlattenAtom(a) + [TOp(op)] + Flatten(rest)
  }

  function FlattenAtom(a: Atom): (ts: seq<Tok>)
    ensures ts != []
  {
    match a
    case ANum(t) => [TNum(t)]
    case AVar(x) => [TVar(x)]
    case Paren(c) => [LParen] + Flatten(c) + [RParen]
    case NegNum(t) => [MINUS, TNum(t)]
    case NegVar(x) => [MINUS, TVar(x)]
    case NegParen(c) => [MINUS, LParen] + Flatten(c) + [RParen]
  }

  /** What the actions of the grammar build. */
  function Tree(c: Chain): Exp {
    match c
    case One(a) => TreeAtom(a)
    case Cons(a, op, rest) => Bin(op, TreeAtom(a), Tree(rest))
  }

  function TreeAtom(a: Atom): Exp {
    match a
    case ANum(t) => Num(t)
    case AVar(x) => Var(x)
    case Paren(c) => Tree(c)
    case NegNum(t) => Neg(Num(t))
    case NegVar(x) => Neg(Var(x))
    case NegParen(c) => Neg(Tree(c))
  }

  // -------------------------------------------------------------------- parser

  /** Reads a chain at `i`, shifting whenever an operator follows. */
  function ParseChain(ts: seq<Tok>, i: nat): (r: Option<(Chain, nat)>)
    requires i <= |ts|
    ensures r.Some? ==> i < r.value.1 <= |ts|
    decreases |ts| - i, 1
  {
    match ParseAtom(ts, i)
    case None => None
    case Some((a, j)) =>
      if j < |ts| && ts[j].TOp? then
        match ParseChain(ts, j + 1)
        case None => None
        case Some((c, k)) => Some((Cons(a, ts[j].op, c), k))
      else Some((One(a), j))
  }

  function ParseAtom(ts: seq<Tok>, i: nat): (r: Option<(Atom, nat)>)
    requires i <= |ts|
    ensures r.Some? ==> i < r.value.1 <= |ts|
    decreases |ts| - i, 0
  {
    if i == |ts| then None
    else
      match ts[i]
      case TNum(t) => Some((ANum(t), i + 1))
      case TVar(x) => Some((AVar(x), i + 1))
      case LParen =>
        var c := ParseInner(ts, i + 1);
        if c.None? then None else Some((Paren(c.value.0), c.value.1))
      case RParen => None
      case TOp(op) =>
        if op != Sub || i + 1 == |ts| then None
        else
          match ts[i + 1]
          case TNum(t) => Some((NegNum(t), i + 2))
          case TVar(x) => Some((NegVar(x), i + 2))
          case LParen =>
            var c := ParseInner(ts, i + 2);
            if c.None? then None else Some((NegParen(c.value.0), c.value.1))
          case _ => None
  }

  /** A chain and the parenthesis that closes it. */
  function ParseInner(ts: seq<Tok>, i: nat): (r: Option<(Chain, nat)>)
    requires i <= |ts|
    ensures r.Some? ==> i < r.value.1 <= |ts|
    decreases |ts| - i, 2
  {
    match ParseChain(ts, i)
    case None => None
    case Some((c, j)) => if j < |ts| && ts[j] == RParen then Some((c, j + 1)) else None
  }

  function Parse(ts: seq<Tok>): Option<Exp> {
    match ParseChain(ts, 0)
    case None => None
    case Some((c, j)) => if j == |ts| then Some(Tree(c)) else None
  }

  // --------------------------------------------- the parser meets the grammar

  ghost predicate At(ts: seq<Tok>, i: nat, part: seq<Tok>) {
    i + |part| <= |ts| && ts[i..i + |part|] == part
  }

  lemma AtSplit(ts: seq<Tok>, i: nat, a: seq<Tok>, b: seq<Tok>)
    ensures At(ts, i, a + b) <==> At(ts, i, a) && At(ts, i + |a|, b)
  {
    if At(ts, i, a + b) {
      assert a == (a + b)[..|a|] && b == (a + b)[|a|..];
      assert ts[i..i + |a|] == ts[i..i + |a + b|][..|a|];
      assert ts[i + |a|..i + |a| + |b|] == ts[i..i + |a + b|][|a|..];
    }
    if At(ts, i, a) && At(ts, i + |a|, b) {
      assert ts[i..i + |a + b|] == ts[i..i + |a|] + ts[i + |a|..i + |a| + |b|];
    }
  }

  lemma AtCons(ts: seq<Tok>, i: nat, a: seq<Tok>, t: Tok, b: seq<Tok>)
    requires At(ts, i, a + [t] + b)
    ensures At(ts, i, a) && i + |a| < |ts| && ts[i + |a|] == t && At(ts, i + |a| + 1, b)
  {
    AtSplit(ts, i, a + [t], b);
    AtSplit(ts, i, a, [t]);
    assert ts[i + |a|] == ts[i + |a|..i + |a| + 1][0];
  }

  predicate Stops(ts: seq<Tok>, j: nat) {
    j >= |ts| || !ts[j].TOp?
  }

  lemma {:induction false} ParseComplete(ts: seq<Tok>, i: nat, c: Chain)
    requires At(ts, i, Flatten(c)) && Stops(ts, i + |Flatten(c)|)
    ensures ParseChain(ts, i) == Some((c, i + |Flatten(c)|))
    decreases c, 1
  {
    var end := i + |Flatten(c)|;
    match c
    case One(a) =>
      ParseAtomComplete(ts, i, a);
      OneParsed(ts, i, a, end);
    case Cons(a, op, rest) =>
      assert |FlattenAtom(a) + [TOp(op)] + Flatten(rest)| == |FlattenAtom(a)| + 1 + |Flatten(rest)|;
      ParseConsComplete(ts, i, a, op, rest, end);
  }

  lemma {:induction false} ParseConsComplete(ts: seq<Tok>, i: nat, a: Atom, op: Op, rest: Chain, end: nat)
    requires At(ts, i, FlattenAtom(a) + [TOp(op)] + Flatten(rest)) && Stops(ts, end)
    requires end == i + |FlattenAtom(a)| + 1 + |Flatten(rest)|
    ensures ParseChain(ts, i) == Some((Cons(a, op, rest), end))
    decreases Cons(a, op, rest), 0
  {
    var fa := FlattenAtom(a);
    AtCons(ts, i, fa, TOp(op), Flatten(rest));
    ParseAtomComplete(ts, i, a);
    ParseComplete(ts, i + |fa| + 1, rest);
    ConsParsed(ts, i, a, i + |fa|, op, rest, end);
  }

  lemma OneParsed(ts: seq<Tok>, i: nat, a: Atom, j: nat)
    requires i <= |ts| && ParseAtom(ts, i) == Some((a, j)) && Stops(ts, j)
    ensures ParseChain(ts, i) == Some((One(a), j))
  {
  }

  lemma ConsParsed(ts: seq<Tok>, i: nat, a: Atom, j: nat, op: Op, rest: Chain, end: nat)
    requires i <= |ts| && ParseAtom(ts, i) == Some((a, j)) && j < |ts| && ts[j] == TOp(op)
    requires ParseChain(ts, j + 1) == Some((rest, end))
    ensures ParseChain(ts, i) == Some((Cons(a, op, rest), end))
  {
  }

  lemma {:induction false} ParseAtomComplete(ts: seq<Tok>, i: nat, a: Atom)
    requires At(ts, i, FlattenAtom(a))
    ensures ParseAtom(ts, i) == Some((a, i + |FlattenAtom(a)|))
    decreases a
  {
    var f := FlattenAtom(a);
    assert ts[i] == ts[i..i + |f|][0] == f[0];
    match a
    case ANum(_) =>
    case AVar(_) =>
    case Paren(c) => ParseInnerComplete(ts, i, [LParen], c);
    case NegNum(_) => assert ts[i + 1] == ts[i..i + |f|][1] == f[1];
    case NegVar(_) => assert ts[i + 1] == ts[i..i + |f|][1] == f[1];
    case NegParen(c) =>
      assert ts[i + 1] == ts[i..i + |f|][1] == f[1];
      ParseInnerComplete(ts, i, [MINUS, LParen], c);
  }

  lemma {:induction false} ParseInnerComplete(ts: seq<Tok>, i: nat, open: seq<Tok>, c: Chain)
    requires At(ts, i, open + Flatten(c) + [RParen])
    ensures ParseInner(ts, i + |open|) == Some((c, i + |open| + |Flatten(c)| + 1))
    decreases c, 2
  {
    var f := Flatten(c);
    AtSplit(ts, i, open + f, [RParen]);
    AtSplit(ts, i, open, f);
    var j := i + |open| + |f|;
    assert ts[j] == ts[j..j + 1][0];
    ParseComplete(ts, i + |open|, c);
  }

  lemma {:induction false} ParseSound(ts: seq<Tok>, i: nat)
    requires i <= |ts| && ParseChain(ts, i).Some?
    ensures var (c, j) := ParseChain(ts, i).value; ts[i..j] == Flatten(c)
    decreases |ts| - i, 1
  {
    ParseAtomSound(ts, i);
    var (a, j) := ParseAtom(ts, i).value;
    if j < |ts| && ts[j].TOp? {
      ParseSound(ts, j + 1);
      var k := ParseChain(ts, i).value.1;
      assert ts[i..k] == ts[i..j] + [ts[j]] + ts[j + 1..k];
    }
  }

  lemma {:induction false} ParseAtomSound(ts: seq<Tok>, i: nat)
    requires i <= |ts| && ParseAtom(ts, i).Some?
    ensures var (a, j) := ParseAtom(ts, i).value; ts[i..j] == FlattenAtom(a)
    decreases |ts| - i, 0
  {
    var (a, j) := ParseAtom(ts, i).value;
    if a.Paren? {
      ParseInnerSound(ts, i + 1);
      Enclosed(ts, i, i + 1, j);
    } else if a.NegParen? {
      ParseInnerSound(ts, i + 2);
      Enclosed(ts, i, i + 2, j);
      assert ts[i..i + 2] == [MINUS, LParen];
    }
  }

  lemma {:induction false} ParseInnerSound(ts: seq<Tok>, i: nat)
    requires i <= |ts| && ParseInner(ts, i).Some?
    ensures var (c, j) := ParseInner(ts, i).value; ts[i..j - 1] == Flatten(c) && ts[j - 1] == RParen
    decreases |ts| - i, 2
  {
    ParseSound(ts, i);
  }

  lemma Enclosed(ts: seq<Tok>, i: nat, j: nat, k: nat)
    requires i <= j < k <= |ts|
    ensures ts[i..k] == ts[i..j] + ts[j..k - 1] + [ts[k - 1]]
  {
  }

  /** The parser accepts exactly the sentences of the grammar, and no sentence has two readings. */
  lemma ParseIff(ts: seq<Tok>, e: Exp)
    ensures Parse(ts) == Some(e) <==> exists c :: Flatten(c) == ts && Tree(c) == e
  {
    if Parse(ts) == Some(e) {
      ParseSound(ts, 0);
      var c := ParseChain(ts, 0).value.0;
      assert ts[0..|ts|] == ts;
      assert Flatten(c) == ts && Tree(c) == e;
    }
    if c :| Flatten(c) == ts && Tree(c) == e {
      assert ts[0..|ts|] == ts;
      ParseComplete(ts, 0, c);
    }
  }

  /** A tree with every operand in parentheses. */
  function Full(e: Exp): Chain {
    match e
    case Num(t) => One(ANum(t))
    case Var(x) => One(AVar(x))
    case Neg(f) => One(NegParen(Full(f)))
    case Bin(op, l, r) => Cons(Paren(Full(l)), op, One(Paren(Full(r))))
  }

  lemma {:induction false} TreeOfFull(e: Exp)
    ensures Tree(Full(e)) == e
  {
    match e
    case Num(_) =>
    case Var(_) =>
    case Neg(f) => TreeOfFull(f);
    case Bin(_, l, r) =>
      TreeOfFull(l);
      TreeOfFull(r);
      assert Tree(One(Paren(Full(r)))) == r && TreeAtom(Paren(Full(l))) == l;
  }

  /** Any tree, written with full parentheses and read again, is the same tree. */
  lemma RenderParse(e: Exp)
    ensures Parse(Flatten(Full(e))) == Some(e)
  {
    TreeOfFull(e);
    ParseIff(Flatten(Full(e)), e);
  }

  // ---------------------------------------------------------------- evaluation

  datatype Result = Value(n: int) | Refused | Trapped

  function Abs(n: int): nat {
    if n < 0 then -n else n
  }

  /** Division of C: the quotient is cut toward zero. */
  function Quotient(a: int, b: int): int
    requires b != 0
  {
    if (a < 0) == (b < 0) then Abs(a) / Abs(b) else -(Abs(a) / Abs(b))
  }

  /** The remainder that goes with it takes the sign of the dividend. */
  function Remainder(a: int, b: int): int
    requires b != 0
  {
    if a < 0 then -(Abs(a) % Abs(b)) else Abs(a) % Abs(b)
  }

  lemma QuotientRemainder(a: int, b: int)
    requires b != 0
    ensures Quotient(a, b) * b + Remainder(a, b) == a
  {
    var m, d := Abs(a), Abs(b);
    assert m == d * (m / d) + m % d;
  }

  /** A zero divisor is refused by `/`; `%` does not look and the process dies. */
  function Apply(op: Op, a: int, b: int): Result {
    match op
    case Add => Value(a + b)
    case Sub => Value(a - b)
    case Mul => Value(a * b)
    case Div => if b == 0 then Refused else Value(Quotient(a, b))
    case Mod => if b == 0 then Trapped else Value(Remainder(a, b))
  }

  predicate IsQuotient(a: int, b: int, q: int) {
    var r := a - q * b;
    Abs(r) < Abs(b) && (r != 0 ==> (r < 0 <==> a < 0))
  }

  ghost predicate IsRemainder(a: int, b: int, r: int) {
    exists q :: IsQuotient(a, b, q) && r == a - q * b
  }

  /**
   The operators: division cuts toward zero, the remainder is smaller than the divisor and has the
   sign of the dividend.
   */
  lemma ApplyMeans(op: Op, a: int, b: int)
    ensures match op
            case Add => Apply(op, a, b) == Value(a + b)
            case Sub => Apply(op, a, b) == Value(a - b)
            case Mul => Apply(op, a, b) == Value(a * b)
            case Div =>
              if b == 0 then Apply(op, a, b) == Refused
              else Apply(op, a, b).Value? && IsQuotient(a, b, Apply(op, a, b).n)
            case Mod =>
              if b == 0 then Apply(op, a, b) == Trapped
              else Apply(op, a, b).Value? && IsRemainder(a, b, Apply(op, a, b).n)
  {
    if b != 0 {
      QuotientRemainder(a, b);
      assert IsQuotient(a, b, Quotient(a, b));
    }
  }

  function Read(text: string): Result {
    var n := Strtol(text);
    if n.None? then Refused else Value(n.value)
  }

  /** `calc_expr`. */
  function Calc(env: map<string, string>, e: Exp): Result {
    match e
    case Num(t) => Read(t)
    case Var(x) => if x in env then Read(env[x]) else Refused
    case Neg(f) =>
      var v := Calc(env, f);
      if v.Value? then Value(-v.n) else v
    case Bin(op, l, r) =>
      var a := Calc(env, l);
      if !a.Value? then a
      else
        var b := Calc(env, r);
        if !b.Value? then b else Apply(op, a.n, b.n)
  }

  /** Every variable that has a value replaced by that value. */
  /** The same on a stack, from left to right: the operand that fails first decides. */
  datatype Instr = Push(text: string) | Load(name: string) | Negate | Do(op: Op)

  function Postfix(e: Exp): seq<Instr> {
    match e
    case Num(t) => [Push(t)]
    case Var(x) => [Load(x)]
    case Neg(f) => Postfix(f) + [Negate]
    case Bin(op, l, r) => Postfix(l) + Postfix(r) + [Do(op)]
  }

  /** One instruction: what is put on the stack, and how many are taken off it. */
  function Execute(env: map<string, string>, i: Instr, stack: seq<int>): (Result, nat) {
    match i
    case Push(t) => (Read(t), 0)
    case Load(x) => (if x in env then Read(env[x]) else Refused, 0)
    case Negate => if |stack| < 1 then (Refused, 0) else (Value(-stack[0]), 1)
    case Do(op) => if |stack| < 2 then (Refused, 0) else (Apply(op, stack[1], stack[0]), 2)
  }

  function Exec(env: map<string, string>, code: seq<Instr>, stack: seq<int>): Result
    decreases |code|
  {
    if code == [] then (if |stack| == 1 then Value(stack[0]) else Refused)
    else
      var (r, taken) := Execute(env, code[0], stack);
      if !r.Value? || taken > |stack| then r else Exec(env, code[1..], [r.n] + stack[taken..])
  }

  lemma {:induction false} ExecFrom(env: map<string, string>, e: Exp, rest: seq<Instr>, stack: seq<int>)
    ensures Exec(env, Postfix(e) + rest, stack) ==
            var v := Calc(env, e); if v.Value? then Exec(env, rest, [v.n] + stack) else v
    decreases e
  {
    match e
    case Num(t) => assert ([Push(t)] + rest)[1..] == rest;
    case Var(x) => assert ([Load(x)] + rest)[1..] == rest;
    case Neg(f) =>
      assert Postfix(e) + rest == Postfix(f) + ([Negate] + rest);
      ExecFrom(env, f, [Negate] + rest, stack);
      assert ([Negate] + rest)[1..] == rest;
    case Bin(op, l, r) =>
      var tail := [Do(op)] + rest;
      assert Postfix(e) + rest == Postfix(l) + (Postfix(r) + tail);
      ExecFrom(env, l, Postfix(r) + tail, stack);
      var a := Calc(env, l);
      if a.Value? {
        ExecFrom(env, r, tail, [a.n] + stack);
        var b := Calc(env, r);
        if b.Value? { ExecDo(env, op, rest, a.n, b.n, stack); }
      }
  }

  lemma ExecDo(env: map<string, string>, op: Op, rest: seq<Instr>, a: int, b: int, stack: seq<int>)
    ensures Exec(env, [Do(op)] + rest, [b] + ([a] + stack)) ==
            var v := Apply(op, a, b); if v.Value? then Exec(env, rest, [v.n] + stack) else v
  {
    var top := [b] + ([a] + stack);
    assert ([Do(op)] + rest)[1..] == rest && top[2..] == stack && top[0] == b && top[1] == a;
  }

  lemma CalcIsExec(env: map<string, string>, e: Exp)
    ensures Calc(env, e) == Exec(env, Postfix(e), [])
  {
    ExecFrom(env, e, [], []);
    assert Postfix(e) + [] == Postfix(e);
  }

  function Substitute(env: map<string, string>, e: Exp): Exp {
    match e
    case Num(_) => e
    case Var(x) => if x in env then Num(env[x]) else e
    case Neg(f) => Neg(Substitute(env, f))
    case Bin(op, l, r) => Bin(op, Substitute(env, l), Substitute(env, r))
  }

  /** Substituting the values first changes nothing, under any later binding of the same variables. */
  lemma {:induction false} SubstituteKeeps(env: map<string, string>, env': map<string, string>, e: Exp)
    requires forall x :: x in env' ==> x in env
    ensures Calc(env', Substitute(env, e)) == Calc(env, e)
  {
    match e
    case Num(_) =>
    case Var(_) =>
    case Neg(f) => SubstituteKeeps(env, env', f);
    case Bin(_, l, r) => SubstituteKeeps(env, env', l); SubstituteKeeps(env, env', r);
  }

  /** A result kept in a variable and used in another expression is the result itself. */
  lemma ResultsCompose(env: map<string, string>, x: string, n: int)
    requires LONG_MIN <= n <= LONG_MAX
    ensures Calc(env[x := Show(n)], Var(x)) == Value(n)
  {
    ShowReadBack(n);
  }
}
