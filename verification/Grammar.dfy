/**
 The rules for expressions as they are written, which are ambiguous: a chain of operators has many
 derivations.  The parser accepts what has any, and builds the tree of the one that never has a
 binary rule as a left operand.
 */
module Grammar {
  import opened Options
  import opened Arith

  /** One constructor a rule of `expr`. */
  datatype Derivation =
    | RNum(text: string) | RVar(name: string)
    | RBin(left: Derivation, op: Op, right: Derivation)
    | RNegParen(inner: Derivation) | RNegNum(text: string) | RNegVar(name: string)
    | RGroup(inner: Derivation)

  /** The sentence that is derived. */
  function Yield(d: Derivation): seq<Tok> {
    match d
    case RNum(t) => [TNum(t)]
    case RVar(x) => [TVar(x)]
    case RBin(l, op, r) => Yield(l) + [TOp(op)] + Yield(r)
    case RNegParen(i) => [MINUS, LParen] + Yield(i) + [RParen]
    case RNegNum(t) => [MINUS, TNum(t)]
    case RNegVar(x) => [MINUS, TVar(x)]
    case RGroup(i) => [LParen] + Yield(i) + [RParen]
  }

  /** What the actions of the rules build. */
  function Built(d: Derivation): Exp {
    match d
    case RNum(t) => Num(t)
    case RVar(x) => Var(x)
    case RBin(l, op, r) => Bin(op, Built(l), Built(r))
    case RNegParen(i) => Neg(Built(i))
    case RNegNum(t) => Neg(Num(t))
    case RNegVar(x) => Neg(Var(x))
    case RGroup(i) => Built(i)
  }

  /** After an operand an operator is always shifted, so no left operand is a chain itself. */
  predicate Shifted(d: Derivation) {
    match d
    case RBin(l, _, r) => !l.RBin? && Shifted(l) && Shifted(r)
    case RNegParen(i) => Shifted(i)
    case RGroup(i) => Shifted(i)
    case _ => true
  }

  function Join(c: Chain, op: Op, d: Chain): Chain {
    match c
    case One(a) => Cons(a, op, d)
    case Cons(a, o, rest) => Cons(a, o, Join(rest, op, d))
  }

  lemma {:induction false} JoinFlattens(c: Chain, op: Op, d: Chain)
    ensures Flatten(Join(c, op, d)) == Flatten(c) + [TOp(op)] + Flatten(d)
  {
    if c.Cons? {
      JoinFlattens(c.rest, op, d);
      var a, f := FlattenAtom(c.atom) + [TOp(c.op)], Flatten(c.rest);
      assert a + (f + [TOp(op)] + Flatten(d)) == (a + f) + [TOp(op)] + Flatten(d);
    }
  }

  /** The chain that a derivation derives. */
  function ChainOf(d: Derivation): Chain {
    match d
    case RNum(t) => One(ANum(t))
    case RVar(x) => One(AVar(x))
    case RBin(l, op, r) => Join(ChainOf(l), op, ChainOf(r))
    case RNegParen(i) => One(NegParen(ChainOf(i)))
    case RNegNum(t) => One(NegNum(t))
    case RNegVar(x) => One(NegVar(x))
    case RGroup(i) => One(Paren(ChainOf(i)))
  }

  /** The derivation of a chain that groups to the right. */
  function DerivationOf(c: Chain): Derivation {
    match c
    case One(a) => OfAtom(a)
    case Cons(a, op, rest) => RBin(OfAtom(a), op, DerivationOf(rest))
  }

  function OfAtom(a: Atom): Derivation {
    match a
    case ANum(t) => RNum(t)
    case AVar(x) => RVar(x)
    case Paren(c) => RGroup(DerivationOf(c))
    case NegNum(t) => RNegNum(t)
    case NegVar(x) => RNegVar(x)
    case NegParen(c) => RNegParen(DerivationOf(c))
  }

  lemma {:induction false} ChainYields(d: Derivation)
    ensures Flatten(ChainOf(d)) == Yield(d)
    ensures Shifted(d) ==> Tree(ChainOf(d)) == Built(d)
    ensures !d.RBin? ==> ChainOf(d).One?
  {
    match d
    case RBin(l, op, r) =>
      ChainYields(l);
      ChainYields(r);
      JoinFlattens(ChainOf(l), op, ChainOf(r));
    case RNegParen(i) => ChainYields(i);
    case RGroup(i) => ChainYields(i);
    case _ =>
  }

  lemma {:induction false} DerivationYields(c: Chain)
    ensures var d := DerivationOf(c); Yield(d) == Flatten(c) && Shifted(d) && Built(d) == Tree(c)
  {
    AtomYields(c.atom);
    if c.Cons? { DerivationYields(c.rest); }
  }

  lemma {:induction false} AtomYields(a: Atom)
    ensures var d := OfAtom(a); Yield(d) == FlattenAtom(a) && Shifted(d) && Built(d) == TreeAtom(a) && !d.RBin?
  {
    match a
    case Paren(c) => DerivationYields(c);
    case NegParen(c) => DerivationYields(c);
    case _ =>
  }

  /** The parser accepts exactly what the ambiguous rules derive. */
  lemma AcceptsIff(ts: seq<Tok>)
    ensures Parse(ts).Some? <==> exists d :: Yield(d) == ts
  {
    if Parse(ts).Some? {
      ParsePicks(ts, Parse(ts).value);
    }
    if d :| Yield(d) == ts {
      ChainYields(d);
      ParseIff(ts, Tree(ChainOf(d)));
    }
  }

  /** Of all derivations it follows the one that shifts, and there is only one tree that one builds. */
  lemma ParsePicks(ts: seq<Tok>, e: Exp)
    ensures Parse(ts) == Some(e) <==> exists d :: Yield(d) == ts && Shifted(d) && Built(d) == e
  {
    ParseIff(ts, e);
    if c :| Flatten(c) == ts && Tree(c) == e {
      DerivationYields(c);
    }
    if d :| Yield(d) == ts && Shifted(d) && Built(d) == e {
      ChainYields(d);
    }
  }
}
