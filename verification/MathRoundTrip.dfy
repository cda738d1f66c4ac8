/** The printer and the parser undo each other on tokens, on exactly the faithful trees. */
module MathRoundTrip {
  import opened MathSyntax
  import opened MathGrammar
  import opened MathStreams
  import opened MathChains
  import opened MathReading
  import opened MathReparse

  /** What the parser makes of any readable printed tree, faithful or not. */
  lemma {:induction false} PrintedParsesAsReparse(e: Expr)
    requires Readable(e)
    ensures ParseFull(Render(e, 0)) == Ok(Reparse(e), [])
  {
    ExprReadsPrinted(e, 0, []);
    assert Render(e, 0) + [] == Render(e, 0);
  }

  lemma {:induction false} SymbolsAreNotTau()
    ensures forall c: Constant :: Lower(ConstantToken(c).raw) != "tau"
    ensures Lower(ROOT_SIGN) != "tau"
  {
    forall c: Constant ensures Lower(ConstantToken(c).raw) != "tau" {
      assert |Lower(ConstantToken(c).raw)| == 1;
    }
    assert |Lower(ROOT_SIGN)| == 1;
  }

  /** Parentheses round two printed pieces with a token between them add no names. */
  lemma {:induction false} JoinKeepsTokens(outer: bool, x: seq<Token>, t: Token, y: seq<Token>)
    requires LatexFree(x) && LatexFree(y) && !t.Latex?
    ensures var ts := Wrap(outer, x + [t] + y);
            && LatexFree(ts)
            && (TauFreeTokens(x) && TauFreeTokens(y) && !t.Name? ==> TauFreeTokens(ts))
  {
    var inner := x + [t] + y;
    assert forall i | 0 <= i < |inner| ::
      inner[i] == if i < |x| then x[i] else if i == |x| then t else y[i - |x| - 1];
  }

  lemma {:induction false} PrintedTokens(e: Expr, minPrec: nat)
    ensures LatexFree(Render(e, minPrec))
    ensures CallsReadable(e) ==> TauFreeTokens(Render(e, minPrec))
    decreases e, 1
  {
    hide LatexFree, TauFreeTokens, Wrap;
    match e
    case Num(_) => LeafTokens(e, minPrec);
    case Const(_) => LeafTokens(e, minPrec);
    case Neg(a) => PrefixTokens(a, minPrec);
    case Sqrt(a) => PrefixTokens(a, minPrec);
    case Fact(a) => PostfixTokens(a, 4, Bang, minPrec);
    case Percent(a) => PostfixTokens(a, 3, PercentSign, minPrec);
    case Call(_, args) => CallTokens(e, minPrec);
    case Add(a, b) => InfixTokens(a, b, 2, Plus, minPrec > 1);
    case Sub(a, b) => InfixTokens(a, b, 2, Minus, minPrec > 1);
    case Mul(a, b) => InfixTokens(a, b, 3, Times, minPrec > 2);
    case Div(a, b) => InfixTokens(a, b, 3, Slash, minPrec > 2);
    case Frac(a, b) => InfixTokens(a, b, 3, Slash, minPrec > 2);
    case Pow(a, b) => InfixTokens(a, b, 4, Caret, minPrec > 4);
  }

  lemma {:induction false} LeafTokens(e: Expr, minPrec: nat)
    requires e.Num? || e.Const?
    ensures LatexFree(Render(e, minPrec)) && TauFreeTokens(Render(e, minPrec))
  {
    SymbolsAreNotTau();
  }

  lemma {:induction false} PrefixTokens(a: Expr, minPrec: nat)
    ensures LatexFree(Render(Neg(a), minPrec)) && LatexFree(Render(Sqrt(a), minPrec))
    ensures CallsReadable(a) ==> TauFreeTokens(Render(Neg(a), minPrec)) && TauFreeTokens(Render(Sqrt(a), minPrec))
    decreases a, 2
  {
    PrintedTokens(a, 4);
    JoinKeepsTokens(minPrec > 3, [], Op(Minus), Render(a, 4));
    assert [] + [Op(Minus)] + Render(a, 4) == [Op(Minus)] + Render(a, 4);
    SymbolsAreNotTau();
  }

  lemma {:induction false} CallTokens(e: Expr, minPrec: nat)
    requires e.Call?
    ensures LatexFree(Render(e, minPrec))
    ensures CallsReadable(e) ==> TauFreeTokens(Render(e, minPrec))
    decreases e, 0
  {
    PrintedArgTokens(e.args);
  }

  lemma {:induction false} InfixTokens(a: Expr, b: Expr, p: nat, op: Op, outer: bool)
    ensures var ts := Wrap(outer, Render(a, p) + [Op(op)] + Render(b, p));
            LatexFree(ts) && (CallsReadable(a) && CallsReadable(b) ==> TauFreeTokens(ts))
    decreases if a < b then b else a, 2
  {
    PrintedTokens(a, p);
    PrintedTokens(b, p);
    JoinKeepsTokens(outer, Render(a, p), Op(op), Render(b, p));
  }

  lemma {:induction false} PostfixTokens(a: Expr, p: nat, op: Op, minPrec: nat)
    ensures var ts := Wrap(minPrec > 4, Render(a, p) + [Op(op)]);
            LatexFree(ts) && (CallsReadable(a) ==> TauFreeTokens(ts))
    decreases a, 2
  {
    PrintedTokens(a, p);
    JoinKeepsTokens(minPrec > 4, Render(a, p), Op(op), []);
    assert Render(a, p) + [Op(op)] + [] == Render(a, p) + [Op(op)];
  }

  lemma {:induction false} PrintedArgTokens(args: seq<Expr>)
    ensures LatexFree(RenderArgs(args))
    ensures (forall i | 0 <= i < |args| :: CallsReadable(args[i])) ==> TauFreeTokens(RenderArgs(args))
    decreases args, 0
  {
    if args != [] {
      PrintedTokens(args[0], 2);
      PrintedArgTokens(args[1..]);
      assert forall i | 0 <= i < |args| - 1 :: args[1..][i] == args[i + 1];
    }
  }

  lemma {:induction false} NormKeepsNames(e: Expr)
    ensures CallsReadable(Norm(e)) <==> CallsReadable(e)
    ensures TauFree(Norm(e)) <==> TauFree(e)
    decreases e, 1
  {
    match e
    case Num(_) =>
    case Const(_) =>
    case Neg(a) => NormKeepsNames(a);
    case Sqrt(a) => NormKeepsNames(a);
    case Fact(a) => NormKeepsNames(a);
    case Percent(a) => NormKeepsNames(a);
    case Call(_, args) => NormArgsKeepNames(args);
    case _ =>
      NormKeepsNames(e.a);
      NormKeepsNames(e.b);
  }

  lemma {:induction false} NormArgsKeepNames(args: seq<Expr>)
    ensures |NormArgs(args)| == |args|
    ensures forall i | 0 <= i < |args| :: CallsReadable(NormArgs(args)[i]) <==> CallsReadable(args[i])
    ensures forall i | 0 <= i < |args| :: TauFree(NormArgs(args)[i]) <==> TauFree(args[i])
    decreases args, 0
  {
    if args != [] {
      NormKeepsNames(args[0]);
      NormArgsKeepNames(args[1..]);
    }
  }

  /** The round trip holds on exactly the faithful trees. */
  lemma {:induction false} RoundTrip(e: Expr)
    ensures ParseFull(Render(e, 0)) == Ok(Norm(e), []) <==> Faithful(e)
  {
    if Readable(e) {
      PrintedParsesAsReparse(e);
      ReparseIffWellNested(e);
    } else if ParseFull(Render(e, 0)).Ok? {
      AcceptedNames(Render(e, 0));
      PrintedTokens(e, 0);
      NormKeepsNames(e);
    }
  }

  /** Five shapes the printer leaves without the parentheses they need, and what each is read back as. */
  lemma {:induction false} UnfaithfulTrees(x: real, y: real, z: real)
    ensures var a, b, c := Num(x), Num(y), Num(z);
            && ParseFull(Render(Neg(Pow(a, b)), 0)) == Ok(Pow(Neg(a), b), [])
            && ParseFull(Render(Pow(Pow(a, b), c), 0)) == Ok(Pow(a, Pow(b, c)), [])
            && ParseFull(Render(Fact(Pow(a, b)), 0)) == Ok(Pow(a, Fact(b)), [])
            && ParseFull(Render(Neg(Fact(a)), 0)) == Ok(Fact(Neg(a)), [])
            && ParseFull(Render(Sqrt(Fact(a)), 0)) == Ok(Fact(Sqrt(a)), [])
  {
    var a, b, c := Num(x), Num(y), Num(z);
    assert Readable(a) && Readable(b) && Readable(c);
    assert Readable(Pow(a, b)) && Readable(Fact(a));
    PrintedParsesAsReparse(Neg(Pow(a, b)));
    PrintedParsesAsReparse(Pow(Pow(a, b), c));
    PrintedParsesAsReparse(Fact(Pow(a, b)));
    PrintedParsesAsReparse(Neg(Fact(a)));
    PrintedParsesAsReparse(Sqrt(Fact(a)));
    NegatedPower(a, b);
    PowerOfPower(a, b, c);
    FactorialOfPower(a, b);
    SignedFactorials(a);
  }

  lemma {:induction false} NegatedPower(a: Expr, b: Expr)
    requires a.Num? && b.Num?
    ensures Reparse(Neg(Pow(a, b))) == Pow(Neg(a), b)
  {
    var base, exponent := Link([], [Number(a.value)], a, []), Link([], [Number(b.value)], b, []);
    assert ChainOf(Pow(a, b), true) == [base, exponent];
    assert [false] + base.pre == [false] && ApplyPre([false], a) == Neg(a);
    var ch := [base.(pre := [false]), exponent];
    assert Prefixed(false, [base, exponent]) == ch && ch[1..] == [exponent];
    assert LinkTree(ch[0]) == Neg(a) && Assemble([exponent]) == b;
  }

  lemma {:induction false} PowerOfPower(a: Expr, b: Expr, c: Expr)
    requires a.Num? && b.Num? && c.Num?
    ensures Reparse(Pow(Pow(a, b), c)) == Pow(a, Pow(b, c))
  {
    var l := (e: Expr) requires e.Num? => Link([], [Number(e.value)], e, []);
    assert ChainOf(Pow(a, b), true) == [l(a), l(b)];
    assert ChainOf(Pow(Pow(a, b), c), false) == [l(a), l(b), l(c)];
    assert [l(a), l(b), l(c)][1..] == [l(b), l(c)];
    assert Assemble([l(b), l(c)]) == Pow(b, c);
  }

  lemma {:induction false} FactorialOfPower(a: Expr, b: Expr)
    requires a.Num? && b.Num?
    ensures Reparse(Fact(Pow(a, b))) == Pow(a, Fact(b))
  {
    var base, exponent := Link([], Render(a, 0), a, []), Link([], Render(b, 0), b, [false]);
    PostfixedPower(a, b);
    assert LinkTree(base) == a && LinkTree(exponent) == Fact(b) by {
      hide Render, ChainOf, Reparse, Assemble;
      assert ApplyPost(b, [false]) == Fact(ApplyPost(b, []));
    }
    hide Render, ChainOf, LinkTree;
    assert [base, exponent][1..] == [exponent];
    assert Assemble([exponent]) == Fact(b);
  }

  /** The factorial of a power is written behind the exponent. */
  lemma {:induction false} PostfixedPower(a: Expr, b: Expr)
    requires a.Num? && b.Num?
    ensures ChainOf(Fact(Pow(a, b)), false) == [Link([], Render(a, 0), a, []), Link([], Render(b, 0), b, [false])]
  {
    hide Render, Reparse;
    var base, exponent := Link([], Render(a, 0), a, []), Link([], Render(b, 0), b, []);
    assert ChainOf(Pow(a, b), true) == [base, exponent];
    assert exponent.post + [false] == [false];
    assert Postfixed(false, [base, exponent]) == [base, exponent.(post := [false])];
  }

  lemma {:induction false} SignedFactorials(a: Expr)
    requires a.Num?
    ensures Reparse(Neg(Fact(a))) == Fact(Neg(a))
    ensures Reparse(Sqrt(Fact(a))) == Fact(Sqrt(a))
  {
    var l := Link([], [Number(a.value)], a, [false]);
    assert [] + [false] == [false];
    assert ChainOf(Fact(a), true) == [l];
    assert ApplyPost(Neg(a), [false]) == Fact(Neg(a)) && ApplyPost(Sqrt(a), [false]) == Fact(Sqrt(a));
    assert [false] + l.pre == [false] && [true] + l.pre == [true];
    assert ApplyPre([false], a) == Neg(a) && ApplyPre([true], a) == Sqrt(a);
  }
}
