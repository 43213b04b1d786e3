/**
 The manual promises the arithmetic of sh(1), where `*`, `/` and `%` bind tighter and operators
 group to the left.  The grammar groups every chain to the right.  The two agree on a chain of
 operators, for all operands, exactly when the chain is plain.
 */
module Precedence {
  import opened Options
  import opened Numbers
  import opened Arith

  /** The operators and operands after the first operand. */
  datatype Links = End | Link(op: Op, n: int, rest: Links)

  function Shape(ls: Links): seq<Op> {
    match ls case End => [] case Link(op, _, rest) => [op] + Shape(rest)
  }

  /** The chain as it is written, negative operands with their sign. */
  function Operand(n: int): Atom {
    if n < 0 then NegNum(Decimal(-n)) else ANum(Decimal(n))
  }

  function Written(n: int, ls: Links): Chain
    decreases ls
  {
    match ls case End => One(Operand(n)) case Link(op, m, rest) => Cons(Operand(n), op, Written(m, rest))
  }

  /** Grouped to the right. */
  function Right(n: int, ls: Links): Result
    decreases ls
  {
    match ls
    case End => Value(n)
    case Link(op, m, rest) =>
      var r := Right(m, rest);
      if r.Value? then Apply(op, n, r.n) else r
  }

  /** As sh(1): finished terms are in `total`, and the term being read is `term`. */
  function Shell(total: int, term: int, ls: Links): Result
    decreases ls
  {
    match ls
    case End => Value(total + term)
    case Link(op, n, rest) =>
      if op == Add then Shell(total + term, n, rest)
      else if op == Sub then Shell(total + term, -n, rest)
      else
        var t := Apply(op, term, n);
        if t.Value? then Shell(total, t.n, rest) else t
  }

  predicate InRange(n: int, ls: Links)
    decreases ls
  {
    LONG_MIN < n <= LONG_MAX && (ls.Link? ==> InRange(ls.n, ls.rest))
  }

  /** `Right` is what the daemon computes for the chain as it is written. */
  lemma {:induction false} RightIsCalc(env: map<string, string>, n: int, ls: Links)
    requires InRange(n, ls)
    ensures Parse(Flatten(Written(n, ls))) == Some(Tree(Written(n, ls)))
    ensures Calc(env, Tree(Written(n, ls))) == Right(n, ls)
    decreases ls
  {
    ParseIff(Flatten(Written(n, ls)), Tree(Written(n, ls)));
    ShowReadBack(if n < 0 then -n else n);
    assert Calc(env, TreeAtom(Operand(n))) == Value(n);
    if ls.Link? {
      RightIsCalc(env, ls.n, ls.rest);
    }
  }

  predicate AddOrSub(op: Op) {
    op == Add || op == Sub
  }

  predicate NoSums(ops: seq<Op>) {
    forall op <- ops :: !AddOrSub(op)
  }

  /** A chain that means the same to both. */
  predicate Plain(ops: seq<Op>) {
    if ops == [] then true
    else
      var rest := ops[1..];
      match ops[0]
      case Add => Plain(rest)
      case Sub => NoSums(rest) && Plain(rest)
      case Mul => forall op <- rest :: op == Mul
      case Div => rest == []
      case Mod => rest == []
  }

  function Plus(k: int, r: Result): Result {
    if r.Value? then Value(k + r.n) else r
  }

  function Times(k: int, r: Result): Result {
    if r.Value? then Value(k * r.n) else r
  }

  lemma {:induction false} TotalOut(total: int, term: int, ls: Links)
    ensures Shell(total, term, ls) == Plus(total, Shell(0, term, ls))
    decreases ls
  {
    if ls.Link? {
      if ls.op == Add {
        TotalOut(total + term, ls.n, ls.rest);
        TotalOut(term, ls.n, ls.rest);
      } else if ls.op == Sub {
        TotalOut(total + term, -ls.n, ls.rest);
        TotalOut(term, -ls.n, ls.rest);
      } else if Apply(ls.op, term, ls.n).Value? {
        TotalOut(total, Apply(ls.op, term, ls.n).n, ls.rest);
      }
    }
  }

  lemma ShapeTail(ls: Links)
    requires ls.Link?
    ensures Shape(ls)[0] == ls.op && Shape(ls)[1..] == Shape(ls.rest)
    ensures forall op :: op in Shape(ls) <==> op == ls.op || op in Shape(ls.rest)
  {
  }

  lemma ApplySign(op: Op, a: int, b: int)
    requires !AddOrSub(op)
    ensures Apply(op, -a, b) == Times(-1, Apply(op, a, b))
  {
    assert Abs(-a) == Abs(a);
    match op
    case Mul => assert (-a) * b == -(a * b);
    case Div => if b != 0 && a == 0 { assert Abs(a) / Abs(b) == 0; }
    case Mod => if b != 0 && a == 0 { assert Abs(a) % Abs(b) == 0; }
    case _ =>
  }

  /** The sign of a term without sums can be taken out. */
  lemma {:induction false} SignOut(term: int, ls: Links)
    requires NoSums(Shape(ls))
    ensures Shell(0, -term, ls) == Times(-1, Shell(0, term, ls))
    decreases ls
  {
    if ls.Link? {
      ShapeTail(ls);
      assert !AddOrSub(ls.op);
      var t := Apply(ls.op, term, ls.n);
      ApplySign(ls.op, term, ls.n);
      if t.Value? { SignOut(t.n, ls.rest); }
    }
  }

  lemma {:induction false} FactorOut(k: int, term: int, ls: Links)
    requires forall op <- Shape(ls) :: op == Mul
    ensures Shell(0, k * term, ls) == Times(k, Shell(0, term, ls))
    decreases ls
  {
    if ls.Link? {
      ShapeTail(ls);
      assert ls.op in Shape(ls) && (k * term) * ls.n == k * (term * ls.n);
      FactorOut(k, term * ls.n, ls.rest);
    }
  }

  lemma {:induction false} MulsArePlain(ops: seq<Op>)
    requires forall op <- ops :: op == Mul
    ensures Plain(ops)
  {
    if ops != [] {
      assert ops[0] in ops && forall op <- ops[1..] :: op in ops;
      MulsArePlain(ops[1..]);
    }
  }

  lemma {:induction false} PlainAgrees(n: int, ls: Links)
    requires Plain(Shape(ls))
    ensures Right(n, ls) == Shell(0, n, ls)
    decreases ls
  {
    if ls.Link? {
      ShapeTail(ls);
      match ls.op
      case Add =>
        PlainAgrees(ls.n, ls.rest);
        TotalOut(n, ls.n, ls.rest);
      case Sub =>
        PlainAgrees(ls.n, ls.rest);
        TotalOut(n, -ls.n, ls.rest);
        SignOut(ls.n, ls.rest);
      case Mul =>
        MulsArePlain(Shape(ls.rest));
        PlainAgrees(ls.n, ls.rest);
        FactorOut(n, ls.n, ls.rest);
      case Div =>
      case Mod =>
    }
  }

  // ------------------------------------------------ operands that tell them apart

  /** Operands that leave a value `t` smaller than `m` as it is, under either reading. */
  function Neutral(ops: seq<Op>, m: nat): Links {
    if ops == [] then End
    else
      match ops[0]
      case Add => Link(Add, 0, Neutral(ops[1..], m))
      case Sub => Link(Sub, 0, Neutral(ops[1..], m))
      case Mul => Link(Mul, 1, Neutral(ops[1..], m))
      case Div => Link(Div, 1, Neutral(ops[1..], m))
      case Mod => Link(Mod, m, Neutral(ops[1..], m + 1))
  }

  lemma NeutralApply(t: int, m: nat)
    requires t < m && -t < m
    ensures Apply(Mul, t, 1) == Value(t)
    ensures Apply(Div, t, 1) == Value(t)
    ensures Apply(Mod, t, m) == Value(t)
  {
    assert Apply(Div, t, 1) == Value(t) by { assert Abs(1) == 1; }
    assert Apply(Mod, t, m) == Value(t) by { SmallModulo(Abs(t), m); }
  }

  lemma SmallModulo(a: nat, m: nat)
    requires a < m
    ensures a % m == a && Abs(m) == m
  {
  }

  lemma {:induction false} NeutralKeeps(ops: seq<Op>, m: nat, t: int, total: int, term: int)
    requires m >= 2 && t < m && -t < m && term < m && -term < m
    ensures Shape(Neutral(ops, m)) == ops
    ensures Right(t, Neutral(ops, m)) == Value(t)
    ensures Shell(total, term, Neutral(ops, m)) == Value(total + term)
    decreases |ops|
  {
    if ops != [] {
      var rest := ops[1..];
      assert [ops[0]] + rest == ops;
      NeutralApply(t, m);
      NeutralApply(term, m);
      match ops[0]
      case Add => NeutralKeeps(rest, m, 0, total + term, 0);
      case Sub => NeutralKeeps(rest, m, 0, total + term, 0);
      case Mul => NeutralKeeps(rest, m, 1, total, term);
      case Div => NeutralKeeps(rest, m, 1, total, term);
      case Mod => NeutralKeeps(rest, m + 1, m, total, term);
    }
  }

  /** A first operand, what follows it, and the two readings differ. */
  ghost predicate Differ(ops: seq<Op>, n: int, ls: Links) {
    Shape(ls) == ops && Right(n, ls) != Shell(0, n, ls)
  }

  /** Three operands under two operators, grouped to the left. */
  function Grouped(op: Op, next: Op, a: int, b: int, c: int): Result {
    var t := Apply(op, a, b);
    if t.Value? then Apply(next, t.n, c) else t
  }

  predicate Tells(op: Op, next: Op, a: int, b: int, c: int) {
    && 0 < a < 3 && 0 < b < 3 && 0 < c < 3
    && Right(a, Link(op, b, Link(next, c, End))) != Grouped(op, next, a, b, c)
  }

  lemma DivTells(next: Op) returns (a: int, b: int, c: int)
    ensures Tells(Div, next, a, b, c)
  {
    a, b, c := 1, 1, 1;
    match next
    case Add => assert Quotient(1, 2) == 0 && Quotient(1, 1) == 1;
    case Sub => assert Quotient(1, 1) == 1;
    case Mul =>
      c := 2;
      assert Quotient(1, 2) == 0 && Quotient(1, 1) == 1;
    case Div =>
      a, b, c := 2, 2, 2;
      assert Quotient(2, 2) == 1 && Quotient(2, 1) == 2 && Quotient(1, 2) == 0;
    case Mod =>
      a, b, c := 2, 2, 2;
      assert Quotient(2, 2) == 1 && Remainder(2, 2) == 0 && Remainder(1, 2) == 1;
  }

  lemma ModTells(next: Op) returns (a: int, b: int, c: int)
    ensures Tells(Mod, next, a, b, c)
  {
    a, b, c := 1, 1, 1;
    match next
    case Add =>
      a := 2;
      assert Remainder(2, 2) == 0 && Remainder(2, 1) == 0;
    case Sub => assert Remainder(1, 1) == 0;
    case Mul =>
      c := 2;
      assert Remainder(1, 2) == 1 && Remainder(1, 1) == 0;
    case Div =>
      c := 2;
      assert Quotient(1, 2) == 0 && Remainder(1, 1) == 0 && Quotient(0, 2) == 0;
    case Mod =>
      b, c := 2, 2;
      assert Remainder(2, 2) == 0 && Remainder(1, 2) == 1;
  }

  lemma SmallResults(op: Op, a: int, b: int)
    requires op == Div || op == Mod
    requires 0 < a < 3 && 0 < b < 3
    ensures Apply(op, a, b).Value? && 0 <= Apply(op, a, b).n <= a
  {
    assert a / b <= a && a % b <= a;
  }

  /** `/` or `%` with an operator after it. */
  lemma DivisionTells(op: Op, next: Op, ops: seq<Op>) returns (n: int, ls: Links)
    requires op == Div || op == Mod
    ensures Differ([op, next] + ops, n, ls)
  {
    var a, b, c;
    if op == Div { a, b, c := DivTells(next); } else { a, b, c := ModTells(next); }
    n, ls := a, Link(op, b, Link(next, c, Neutral(ops, 5)));
    GroupedDiffer(op, next, a, b, c, ops);
  }

  /** What tells two operators apart does so with any operators after it. */
  lemma GroupedDiffer(op: Op, next: Op, a: int, b: int, c: int, ops: seq<Op>)
    requires op == Div || op == Mod
    requires 0 < a < 3 && 0 < b < 3 && 0 < c < 3
    requires Right(a, Link(op, b, Link(next, c, End))) != Grouped(op, next, a, b, c)
    ensures Differ([op, next] + ops, a, Link(op, b, Link(next, c, Neutral(ops, 5))))
  {
    GroupedShape(op, next, b, c, ops);
    GroupedRight(op, next, a, b, c, ops);
    GroupedLeft(op, next, a, b, c, ops);
  }

  lemma GroupedShape(op: Op, next: Op, b: int, c: int, ops: seq<Op>)
    requires 0 < c < 3
    ensures Shape(Link(op, b, Link(next, c, Neutral(ops, 5)))) == [op, next] + ops
  {
    NeutralKeeps(ops, 5, c, 0, 0);
    TwoLinks(op, b, next, c, Neutral(ops, 5));
  }

  lemma TwoLinks(op: Op, b: int, next: Op, c: int, tail: Links)
    ensures Shape(Link(op, b, Link(next, c, tail))) == [op, next] + Shape(tail)
  {
    assert Shape(Link(next, c, tail)) == [next] + Shape(tail);
  }

  lemma GroupedRight(op: Op, next: Op, a: int, b: int, c: int, ops: seq<Op>)
    requires 0 < c < 3
    ensures Right(a, Link(op, b, Link(next, c, Neutral(ops, 5)))) == Right(a, Link(op, b, Link(next, c, End)))
  {
    NeutralKeeps(ops, 5, c, 0, 0);
    assert Right(c, Neutral(ops, 5)) == Value(c) == Right(c, End);
    assert Right(b, Link(next, c, Neutral(ops, 5))) == Right(b, Link(next, c, End));
  }

  lemma GroupedLeft(op: Op, next: Op, a: int, b: int, c: int, ops: seq<Op>)
    requires op == Div || op == Mod
    requires 0 < a < 3 && 0 < b < 3 && 0 < c < 3
    ensures Shell(0, a, Link(op, b, Link(next, c, Neutral(ops, 5)))) == Grouped(op, next, a, b, c)
  {
    SmallResults(op, a, b);
    var t := Apply(op, a, b).n;
    if next == Add {
      NeutralKeeps(ops, 5, c, t, c);
    } else if next == Sub {
      NeutralKeeps(ops, 5, c, t, -c);
    } else {
      SmallNext(next, t, c);
      NeutralKeeps(ops, 5, c, 0, Apply(next, t, c).n);
    }
  }

  lemma SmallNext(op: Op, t: int, c: int)
    requires !AddOrSub(op) && 0 <= t < 3 && 0 < c < 3
    ensures Apply(op, t, c).Value? && 0 <= Apply(op, t, c).n < 5
  {
    match op
    case Mul => assert t * c == if c == 1 then t else t + t;
    case Div => assert t / c <= t;
    case Mod => assert t % c < c;
    case _ =>
  }

  /** Multiplications and then another operator: doubling first and doubling last differ. */
  lemma {:induction false} ProductTells(ops: seq<Op>) returns (n: int, ls: Links)
    requires exists op <- ops :: op != Mul
    ensures Shape(ls) == ops && Right(n, ls).Value? && Shell(0, 2 * n, ls).Value?
    ensures 2 * Right(n, ls).n != Shell(0, 2 * n, ls).n
    decreases |ops|
  {
    if ops[0] == Mul {
      assert forall op <- ops :: op == Mul || op in ops[1..];
      var m, tail := ProductTells(ops[1..]);
      n, ls := 1, Link(Mul, m, tail);
      assert 1 * Right(m, tail).n == Right(m, tail).n;
    } else {
      var c := if AddOrSub(ops[0]) then 1 else 2;
      n := c - 1;
      var tail := Neutral(ops[1..], 5);
      ls := Link(ops[0], c, tail);
      forall total: int, term: int | -5 < term < 5
        ensures Shell(total, term, tail) == Value(total + term)
      {
        NeutralKeeps(ops[1..], 5, c, total, term);
      }
      NeutralKeeps(ops[1..], 5, c, 0, 0);
    }
  }

  /** A sum inside a difference: to the right it cancels or divides by zero, to sh(1) it adds up. */
  lemma {:induction false} DifferenceTells(ops: seq<Op>) returns (ls: Links)
    requires !NoSums(ops)
    ensures Shape(ls) == ops
    ensures Right(1, ls).Value? ==> Right(1, ls).n == 0
    ensures forall total, term :: -1 <= term <= 0 ==>
      Shell(total, term, ls).Value? && Shell(total, term, ls).n < total
    decreases |ops|
  {
    if AddOrSub(ops[0]) {
      var c := if ops[0] == Add then -1 else 1;
      var tail := Neutral(ops[1..], 5);
      ls := Link(ops[0], c, tail);
      forall total: int, term: int | -5 < term < 5
        ensures Shell(total, term, tail) == Value(total + term)
      {
        NeutralKeeps(ops[1..], 5, c, total, term);
      }
      NeutralKeeps(ops[1..], 5, c, 0, 0);
    } else {
      assert forall op <- ops :: op == ops[0] || op in ops[1..];
      var tail := DifferenceTells(ops[1..]);
      ls := Link(ops[0], 1, tail);
    }
  }

  lemma {:induction false} NotPlainTells(ops: seq<Op>) returns (n: int, ls: Links)
    requires !Plain(ops)
    ensures Differ(ops, n, ls)
    decreases |ops|
  {
    var rest := ops[1..];
    assert ops == [ops[0]] + rest;
    match ops[0]
    case Add =>
      var m, tail := NotPlainTells(rest);
      n, ls := 0, Link(Add, m, tail);
    case Sub =>
      if NoSums(rest) {
        var m, tail := NotPlainTells(rest);
        n, ls := 0, Link(Sub, m, tail);
        SignOut(m, tail);
      } else {
        var tail := DifferenceTells(rest);
        n, ls := 0, Link(Sub, 1, tail);
        assert Shell(0, 0, ls) == Shell(0, -1, tail);
      }
    case Mul =>
      var m, tail := ProductTells(rest);
      n, ls := 2, Link(Mul, m, tail);
    case Div =>
      n, ls := DivisionTells(Div, rest[0], rest[1..]);
      assert [Div, rest[0]] + rest[1..] == ops;
    case Mod =>
      n, ls := DivisionTells(Mod, rest[0], rest[1..]);
      assert [Mod, rest[0]] + rest[1..] == ops;
  }

  ghost predicate AlwaysAgree(ops: seq<Op>) {
    forall n, ls :: Shape(ls) == ops ==> Right(n, ls) == Shell(0, n, ls)
  }

  /** A chain of operators means what sh(1) says, whatever its operands, exactly when it is plain. */
  lemma ShellIff(ops: seq<Op>)
    ensures AlwaysAgree(ops) <==> Plain(ops)
  {
    if Plain(ops) {
      forall n, ls | Shape(ls) == ops ensures Right(n, ls) == Shell(0, n, ls) {
        PlainAgrees(n, ls);
      }
    } else {
      var n, ls := NotPlainTells(ops);
      assert Differ(ops, n, ls);
    }
  }

  /** `1 - 2 - 3` is 2 to the daemon and -4 to sh(1). */
  lemma DifferenceExample()
    ensures var ls := Link(Sub, 2, Link(Sub, 3, End)); Right(1, ls) == Value(2) && Shell(0, 1, ls) == Value(-4)
  {
    assert Right(2, Link(Sub, 3, End)) == Value(-1);
    assert Shell(1, -2, Link(Sub, 3, End)) == Value(-4);
  }

  // -------------------------------------------- parentheses and variables

  /** sh(1) knows one kind of failure. */
  function ValueOf(r: Result): Option<int> {
    if r.Value? then Some(r.n) else None
  }

  function Negated(v: Option<int>): Option<int> {
    if v.Some? then Some(-v.value) else None
  }

  /** An operand to sh(1), where a variable without a value is an error. */
  function ShellAtom(env: map<string, string>, a: Atom): Option<int>
    decreases a
  {
    match a
    case ANum(t) => ValueOf(Read(t))
    case AVar(x) => if x in env then ValueOf(Read(env[x])) else None
    case Paren(c) => ShellChain(env, c)
    case NegNum(t) => Negated(ValueOf(Read(t)))
    case NegVar(x) => if x in env then Negated(ValueOf(Read(env[x]))) else None
    case NegParen(c) => Negated(ShellChain(env, c))
  }

  /** A chain to sh(1), computed from the left as it is read. */
  function ShellChain(env: map<string, string>, c: Chain): Option<int>
    decreases c, 1
  {
    var a := ShellAtom(env, c.atom);
    if a.None? || c.One? then a else ShellFrom(env, 0, a.value, c.op, c.rest)
  }

  /** Finished terms are in `total`, the term being read is `term`, and `op` and `rest` follow. */
  function ShellFrom(env: map<string, string>, total: int, term: int, op: Op, rest: Chain): Option<int>
    decreases rest, 0
  {
    var a := ShellAtom(env, rest.atom);
    if a.None? then None
    else
      var next := if AddOrSub(op) then Value(if op == Add then a.value else -a.value) else Apply(op, term, a.value);
      var total' := if AddOrSub(op) then total + term else total;
      if !next.Value? then None
      else if rest.One? then Some(total' + next.n)
      else ShellFrom(env, total', next.n, rest.op, rest.rest)
  }

  function Operators(c: Chain): seq<Op> {
    match c case One(_) => [] case Cons(_, op, rest) => [op] + Operators(rest)
  }

  /** The chain is plain, and so is every chain in parentheses inside of it. */
  predicate PlainThroughout(c: Chain)
    decreases c, 1
  {
    Plain(Operators(c)) && PlainOperands(c)
  }

  predicate PlainOperands(c: Chain)
    decreases c, 0
  {
    PlainAtom(c.atom) && (c.Cons? ==> PlainOperands(c.rest))
  }

  predicate PlainAtom(a: Atom)
    decreases a
  {
    match a
    case Paren(c) => PlainThroughout(c)
    case NegParen(c) => PlainThroughout(c)
    case _ => true
  }

  /** The values of the operands, if all have one. */
  function Operands(env: map<string, string>, c: Chain): Option<(int, Links)> {
    var a := ShellAtom(env, c.atom);
    if a.None? then None
    else if c.One? then Some((a.value, End))
    else
      var rest := Operands(env, c.rest);
      if rest.None? then None else Some((a.value, Link(c.op, rest.value.0, rest.value.1)))
  }

  lemma {:induction false} OperandsShape(env: map<string, string>, c: Chain)
    requires Operands(env, c).Some?
    ensures Shape(Operands(env, c).value.1) == Operators(c)
    decreases c
  {
    if c.Cons? { OperandsShape(env, c.rest); }
  }

  lemma {:induction false} ShellFromIs(env: map<string, string>, total: int, term: int, op: Op, rest: Chain)
    ensures ShellFrom(env, total, term, op, rest) ==
            var ns := Operands(env, rest);
            if ns.None? then None else ValueOf(Shell(total, term, Link(op, ns.value.0, ns.value.1)))
    decreases rest
  {
    var a := ShellAtom(env, rest.atom);
    if a.Some? && rest.Cons? {
      if AddOrSub(op) {
        ShellFromIs(env, total + term, if op == Add then a.value else -a.value, rest.op, rest.rest);
      } else if Apply(op, term, a.value).Value? {
        ShellFromIs(env, total, Apply(op, term, a.value).n, rest.op, rest.rest);
      }
    }
  }

  /** The daemon takes the operands from the left as well, and then groups them to the right. */
  lemma {:induction false} CalcIsRight(env: map<string, string>, c: Chain)
    requires PlainOperands(c)
    ensures ValueOf(Calc(env, Tree(c))) ==
            var ns := Operands(env, c); if ns.None? then None else ValueOf(Right(ns.value.0, ns.value.1))
    decreases c, 0
  {
    AtomMeansShell(env, c.atom);
    if c.Cons? { CalcIsRight(env, c.rest); }
  }

  lemma {:induction false} AtomMeansShell(env: map<string, string>, a: Atom)
    requires PlainAtom(a)
    ensures ValueOf(Calc(env, TreeAtom(a))) == ShellAtom(env, a)
    decreases a
  {
    match a
    case Paren(c) => PlainMeansShell(env, c);
    case NegParen(c) => PlainMeansShell(env, c);
    case _ =>
  }

  /** With parentheses, signs and variables: what is plain throughout has the value, if any, that sh(1) gives it. */
  lemma {:induction false} PlainMeansShell(env: map<string, string>, c: Chain)
    requires PlainThroughout(c)
    ensures Parse(Flatten(c)) == Some(Tree(c)) && ValueOf(Calc(env, Tree(c))) == ShellChain(env, c)
    decreases c, 1
  {
    ParseIff(Flatten(c), Tree(c));
    CalcIsRight(env, c);
    var ns := Operands(env, c);
    if ns.Some? {
      OperandsShape(env, c);
      PlainAgrees(ns.value.0, ns.value.1);
    }
    if c.Cons? && ShellAtom(env, c.atom).Some? {
      ShellFromIs(env, 0, ShellAtom(env, c.atom).value, c.op, c.rest);
    }
  }
}
