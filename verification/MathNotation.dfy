/** Forms of an expression that the printer never writes, and what the parser makes of them. */
module MathNotation {
  import opened MathSyntax
  import opened MathGrammar
  import opened MathStreams
  import opened MathChains
  import opened MathReading
  import opened MathSpelling

  /** A stream that is one atom is that atom's tree. */
  lemma {:induction false} AtomAlone(ts: seq<Token>, tree: Expr)
    requires ts != [] && !ts[0].Op? && ParseAtom(ts) == Ok(tree, [])
    ensures ParseFull(ts) == Ok(tree, [])
  {
    hide ParseAtom;
    assert ParsePostfix(ts) == Ok(tree, []);
    assert ParseFactor(ts) == Ok(tree, []);
    assert ParseTerm(ts) == Ok(tree, []);
    assert ParseExpr(ts) == Ok(tree, []);
  }

  lemma {:induction false} ReadsClosed(e: Expr, close: Token, rest: seq<Token>)
    requires Readable(e) && (close == RParen || close == RBrace)
    ensures ParseClosed(Render(e, 0) + ([close] + rest), close) == Ok(Reparse(e), rest)
  {
    hide Render, Reparse, ParseExpr;
    ExprReadsPrinted(e, 0, [close] + rest);
  }

  lemma {:induction false} ReadsBraced(e: Expr, rest: seq<Token>)
    requires Readable(e)
    ensures ParseBraced([LBrace] + (Render(e, 0) + ([RBrace] + rest))) == Ok(Reparse(e), rest)
  {
    hide Render, Reparse, ParseClosed;
    ReadsClosed(e, RBrace, rest);
    var inner := Render(e, 0) + ([RBrace] + rest);
    assert ([LBrace] + inner)[1..] == inner;
  }

  lemma {:induction false} ReadsArgument(e: Expr, rest: seq<Token>)
    requires Readable(e)
    ensures ParseCommaArgs([LParen] + (Render(e, 0) + ([RParen] + rest))) == OkArgs([Reparse(e)], rest)
  {
    RenderStartsOpen(e, 0);
    hide Render, Reparse, ParseExpr;
    ExprReadsPrinted(e, 0, [RParen] + rest);
    var inner := Render(e, 0) + ([RParen] + rest);
    ArgsLoopStep([], inner, Reparse(e), RParen, rest);
    assert ([LParen] + inner)[1..] == inner && inner[0] == Render(e, 0)[0];
  }

  function InBraces(ts: seq<Token>): seq<Token> { [LBrace] + (ts + ([RBrace] + [])) }
  function InParens(ts: seq<Token>): seq<Token> { [LParen] + (ts + ([RParen] + [])) }

  /** A group, in either brackets, is its expression; a trailing equals sign changes nothing. */
  lemma {:induction false} GroupIsItself(e: Expr)
    requires Readable(e)
    ensures ParseFull(InBraces(Render(e, 0))) == Ok(Reparse(e), [])
    ensures ParseFull(InParens(Render(e, 0))) == Ok(Reparse(e), [])
    ensures ParseFull(Render(e, 0) + [Op(Equals)]) == Ok(Reparse(e), [])
  {
    hide Render, Reparse, ParseClosed;
    ReadsClosed(e, RBrace, []);
    ReadsClosed(e, RParen, []);
    assert InBraces(Render(e, 0))[1..] == Render(e, 0) + ([RBrace] + []);
    assert InParens(Render(e, 0))[1..] == Render(e, 0) + ([RParen] + []);
    AtomAlone(InBraces(Render(e, 0)), Reparse(e));
    AtomAlone(InParens(Render(e, 0)), Reparse(e));
    ExprReadsPrinted(e, 0, [Op(Equals)]);
  }

  /** The letters a name is compared by: upper case is folded, other ASCII letters and digits are not touched. */
  lemma {:induction false} CaseIsFolded()
    ensures Lower("ABCDEFGHIJKLMNOPQRSTUVWXYZ") == "abcdefghijklmnopqrstuvwxyz"
    ensures Lower("abcdefghijklmnopqrstuvwxyz0123456789") == "abcdefghijklmnopqrstuvwxyz0123456789"
    ensures forall a, b :: Lower(a + b) == Lower(a) + Lower(b)
  {
  }

  /** Numerator first, as a command or a bare name, long or short. */
  lemma {:induction false} FractionReads(a: Expr, b: Expr, name: string)
    requires Readable(a) && Readable(b) && (Lower(name) == "frac" || Lower(name) == "dfrac")
    ensures var groups := InBraces(Render(a, 0)) + InBraces(Render(b, 0));
      && ParseFull([Latex("frac")] + groups) == Ok(Frac(Reparse(a), Reparse(b)), [])
      && ParseFull([Latex("dfrac")] + groups) == Ok(Frac(Reparse(a), Reparse(b)), [])
      && ParseFull([Name(name)] + groups) == Ok(Frac(Reparse(a), Reparse(b)), [])
  {
    hide Render, Reparse, ParseBraced;
    var second := InBraces(Render(b, 0));
    var groups := InBraces(Render(a, 0)) + second;
    assert groups == [LBrace] + (Render(a, 0) + ([RBrace] + second));
    ReadsBraced(a, second);
    ReadsBraced(b, []);
    var whole := Frac(Reparse(a), Reparse(b));
    assert ParseFraction(groups) == Ok(whole, []);
    assert Classify(Lower(name)).FractionName? by {
      assert "frac"[0] == 'f' && "dfrac"[0] == 'd' && "infinity"[0] == 'i' && |PI_SIGN| == 1 && |INFINITY_SIGN| == 1;
    }
    hide ParseFraction, Classify, Lower;
    forall t | t in [Latex("frac"), Latex("dfrac"), Name(name)] ensures ParseFull([t] + groups) == Ok(whole, []) {
      assert ([t] + groups)[1..] == groups;
      AtomAlone([t] + groups, whole);
    }
    assert [Latex("frac"), Latex("dfrac"), Name(name)][0] == Latex("frac");
    assert [Latex("frac"), Latex("dfrac"), Name(name)][1] == Latex("dfrac");
    assert [Latex("frac"), Latex("dfrac"), Name(name)][2] == Name(name);
  }

  /** A root of a group in either brackets, or of what a sign or an atom begins, and the command's root of braces. */
  lemma {:induction false} RootReads(e: Expr, name: string)
    requires Readable(e) && (Lower(name) == "sqrt" || Lower(name) == ROOT_SIGN)
    ensures ParseFull([Name(name)] + InBraces(Render(e, 0))) == Ok(Sqrt(Reparse(e)), [])
    ensures ParseFull([Name(name)] + InParens(Render(e, 0))) == Ok(Sqrt(Reparse(e)), [])
    ensures ParseFull([Latex("sqrt")] + InBraces(Render(e, 0))) == Ok(Sqrt(Reparse(e)), [])
  {
    assert Classify(Lower(name)).RootName? by {
      assert "sqrt"[0] == 's' && |PI_SIGN| == 1 && |INFINITY_SIGN| == 1 && |ROOT_SIGN| == 1;
      assert "infinity"[0] == 'i' && ROOT_SIGN[0] != PI_SIGN[0] && ROOT_SIGN[0] != INFINITY_SIGN[0] && ROOT_SIGN[0] != 'e';
      assert "frac"[0] == 'f';
    }
    hide Render, Reparse, ParseBraced, ParseCommaArgs, Classify, Lower;
    var braces, parens := InBraces(Render(e, 0)), InParens(Render(e, 0));
    ReadsBraced(e, []);
    ReadsArgument(e, []);
    assert ParseRoot(braces) == Ok(Sqrt(Reparse(e)), []);
    assert ParseRoot(parens) == Ok(Sqrt(Reparse(e)), []);
    assert ParseLatex("sqrt", braces) == Ok(Sqrt(Reparse(e)), []);
    hide ParseRoot, ParseLatex;
    assert ([Name(name)] + braces)[1..] == braces && ([Name(name)] + parens)[1..] == parens;
    assert ([Latex("sqrt")] + braces)[1..] == braces;
    AtomAlone([Name(name)] + braces, Sqrt(Reparse(e)));
    AtomAlone([Name(name)] + parens, Sqrt(Reparse(e)));
    AtomAlone([Latex("sqrt")] + braces, Sqrt(Reparse(e)));
  }

  /** The names with a meaning of their own. */
  predicate Reserved(lower: string) {
    lower in ["pi", PI_SIGN, "tau", "e", "infinity", INFINITY_SIGN, "frac", "dfrac", "sqrt", ROOT_SIGN]
  }

  lemma {:induction false} ReservedNames(lower: string)
    ensures Reserved(lower) <==> !Classify(lower).ListName? && !Classify(lower).FunctionName?
    ensures Classify(lower).ListName? <==> lower == "min" || lower == "max"
  {
    assert "min"[0] == 'm' && "max"[0] == 'm' && "pi"[0] == 'p' && "tau"[0] == 't' && "e"[0] == 'e' && "infinity"[0] == 'i';
    assert "frac"[0] == 'f' && "dfrac"[0] == 'd' && "sqrt"[0] == 's' && |PI_SIGN| == 1 && |INFINITY_SIGN| == 1;
    assert |ROOT_SIGN| == 1 && |"min"| == 3 && |"max"| == 3;
  }

  /** A function of one argument takes it in either brackets, under its lower-cased name; `min` and `max` only in
      parentheses. */
  lemma {:induction false} FunctionReads(e: Expr, name: string)
    requires Readable(e) && !Reserved(Lower(name))
    ensures ParseFull([Name(name)] + InParens(Render(e, 0))) == Ok(Call(Lower(name), [Reparse(e)]), [])
    ensures ParseFull([Name(name)] + InBraces(Render(e, 0))) ==
            if Lower(name) == "min" || Lower(name) == "max" then Fail else Ok(Call(Lower(name), [Reparse(e)]), [])
  {
    ReservedNames(Lower(name));
    hide Render, Reparse, ParseBraced, ParseCommaArgs, Classify, Lower, Reserved;
    var braces, parens := InBraces(Render(e, 0)), InParens(Render(e, 0));
    ReadsBraced(e, []);
    ReadsArgument(e, []);
    assert ([Name(name)] + braces)[1..] == braces && ([Name(name)] + parens)[1..] == parens;
    var call := Call(Lower(name), [Reparse(e)]);
    assert ParseList(Lower(name), parens) == Ok(call, []);
    assert ParseName(name, parens) == Ok(call, []);
    assert ParseList(Lower(name), braces) == Fail by { assert ParseCommaArgs(braces) == FailArgs by { NoArguments(braces); } }
    assert ParseName(name, braces) == if Classify(Lower(name)).ListName? then Fail else Ok(call, []);
    hide ParseName;
    AtomAlone([Name(name)] + parens, call);
    if Classify(Lower(name)).ListName? {
      FailsAlone([Name(name)] + braces);
    } else {
      AtomAlone([Name(name)] + braces, call);
    }
  }

  lemma NoArguments(ts: seq<Token>)
    requires !At(ts, LParen)
    ensures ParseCommaArgs(ts) == FailArgs
  {
  }

  lemma {:induction false} FailsAlone(ts: seq<Token>)
    requires ts != [] && !ts[0].Op? && ParseAtom(ts) == Fail
    ensures ParseFull(ts) == Fail
  {
    hide ParseAtom;
    assert ParsePostfix(ts) == Fail;
    assert ParseFactor(ts) == Fail;
    assert ParseTerm(ts) == Fail;
    assert ParseExpr(ts) == Fail;
  }

  /** So does a function written as a command. */
  lemma {:induction false} CommandReads(e: Expr, command: string)
    requires Readable(e) && !ConstantCommand(command) && command != "frac" && command != "dfrac" && command != "sqrt"
    ensures ParseFull([Latex(command)] + InBraces(Render(e, 0))) == Ok(Call(command, [Reparse(e)]), [])
    ensures ParseFull([Latex(command)] + InParens(Render(e, 0))) == Ok(Call(command, [Reparse(e)]), [])
  {
    hide Render, Reparse, ParseBraced, ParseCommaArgs;
    var braces, parens := InBraces(Render(e, 0)), InParens(Render(e, 0));
    ReadsBraced(e, []);
    ReadsArgument(e, []);
    assert ([Latex(command)] + braces)[1..] == braces && ([Latex(command)] + parens)[1..] == parens;
    assert ParseList(command, parens) == Ok(Call(command, [Reparse(e)]), []);
    assert ParseLatex(command, braces) == Ok(Call(command, [Reparse(e)]), []);
    assert ParseLatex(command, parens) == Ok(Call(command, [Reparse(e)]), []);
    hide ParseLatex;
    AtomAlone([Latex(command)] + braces, Call(command, [Reparse(e)]));
    AtomAlone([Latex(command)] + parens, Call(command, [Reparse(e)]));
  }

  /** Where an operand is due, an operator command before a group is read as a function, so writing it as the operator
      it stands for elsewhere is not the same. */
  lemma {:induction false} OperatorReadAsFunction(e: Expr)
    requires Readable(e)
    ensures var ts := [Latex("times")] + InParens(Render(e, 0));
      && ParseFull(ts) == Ok(Call("times", [Reparse(e)]), [])
      && !Clean(ts, true) && ParseFull(Canon(ts)).Fail?
  {
    var ts := [Latex("times")] + InParens(Render(e, 0));
    assert "times"[0] == 't' && "times"[1] == 'i' && "tau"[1] == 'a' && "pi"[0] == 'p' && "infty"[0] == 'i';
    assert "frac"[0] == 'f' && "dfrac"[0] == 'd' && "sqrt"[0] == 's';
    CommandReads(e, "times");
    hide ParseFull, Render, Reparse;
    assert ts[..0] == [] && OperatorCommand(ts[0]) && DueAfter(ts[..0], true);
    AnySpelling(ts);
  }

  /** The names of the constants, in upper or lower case. */
  lemma {:induction false} ConstantReads(name: string)
    ensures Lower(name) == "pi" || Lower(name) == PI_SIGN ==> ParseFull([Name(name)]) == Ok(Const(Pi), [])
    ensures Lower(name) == "tau" ==> ParseFull([Name(name)]) == Ok(Const(Tau), [])
    ensures Lower(name) == "e" ==> ParseFull([Name(name)]) == Ok(Const(E), [])
    ensures Lower(name) == "infinity" || Lower(name) == INFINITY_SIGN ==> ParseFull([Name(name)]) == Ok(Const(Infinity), [])
  {
    var c := Classify(Lower(name));
    if c.ConstantName? {
      assert [Name(name)][1..] == [];
      AtomAlone([Name(name)], Const(c.c));
    }
    hide ParseFull;
    assert "pi"[0] == 'p' && "tau"[0] == 't' && "infinity"[0] == 'i' && "e"[0] == 'e' && PI_SIGN[0] != INFINITY_SIGN[0];
  }

  lemma {:induction false} ConstantCommandReads()
    ensures ParseFull([Latex("pi")]) == Ok(Const(Pi), [])
    ensures ParseFull([Latex("tau")]) == Ok(Const(Tau), [])
    ensures ParseFull([Latex("infty")]) == Ok(Const(Infinity), [])
  {
    hide ParseFull;
    assert ConstantOf("pi") == Pi && ConstantOf("tau") == Tau && ConstantOf("infty") == Infinity;
    forall command | ConstantCommand(command) ensures ParseFull([Latex(command)]) == Ok(Const(ConstantOf(command)), []) {
      CommandMeans(command, []);
      assert [Latex(command)][1..] == [];
      AtomAlone([Latex(command)], Const(ConstantOf(command)));
    }
    assert ConstantCommand("pi") && ConstantCommand("tau") && ConstantCommand("infty");
  }

  /** A plus sign before anything changes nothing. */
  lemma {:induction false} PlusSignIsNothing(ts: seq<Token>)
    ensures ParseFull([Op(Plus)] + ts) == ParseFull(ts)
  {
    assert ([Op(Plus)] + ts)[1..] == ts;
    assert ParseUnary([Op(Plus)] + ts) == ParseUnary(ts);
    hide ParseUnary;
    assert ParsePostfix([Op(Plus)] + ts) == ParsePostfix(ts);
    assert ParseFactor([Op(Plus)] + ts) == ParseFactor(ts);
    assert ParseTerm([Op(Plus)] + ts) == ParseTerm(ts);
    assert ParseExpr([Op(Plus)] + ts) == ParseExpr(ts);
  }

  // ---- Products without a sign ----

  /** A printed tree opens with an atom or with a minus sign. */
  lemma {:induction false} OpensPrinted(e: Expr, minPrec: nat)
    ensures var ts := Render(e, minPrec); StartsAtom(ts) || At(ts, Op(Minus))
    ensures !Render(e, minPrec)[0].Latex?
    decreases e
  {
    match e
    case Num(_) =>
    case Const(_) =>
    case Neg(_) =>
    case Sqrt(_) =>
    case Call(_, _) =>
    case Add(a, _) => OpensPrinted(a, 2);
    case Sub(a, _) => OpensPrinted(a, 2);
    case Mul(a, _) => OpensPrinted(a, 3);
    case Div(a, _) => OpensPrinted(a, 3);
    case Frac(a, _) => OpensPrinted(a, 3);
    case Pow(a, _) => OpensPrinted(a, 4);
    case Fact(a) => OpensPrinted(a, 4);
    case Percent(a) => OpensPrinted(a, 3);
  }

  /** A loop over sums that has a sign to go on with comes to a sum or a difference, if to anything. */
  lemma {:induction false} LoopIsSum(lhs: Expr, ts: seq<Token>)
    requires lhs.Add? || lhs.Sub? || At(ts, Op(Minus))
    ensures var p := ExprLoop(lhs, ts); p.Ok? ==> p.tree.Add? || p.tree.Sub?
    decreases |ts|
  {
    if At(ts, Op(Plus)) || At(ts, Op(Minus)) || At(ts, Op(MinusSign)) {
      var p := ParseTerm(ts[1..]);
      if p.Ok? {
        LoopIsSum(if At(ts, Op(Plus)) then Add(lhs, p.tree) else Sub(lhs, p.tree), p.rest);
      }
    }
  }

  lemma {:induction false} TwoFactors(x: seq<Token>, y: seq<Token>, a: Expr, b: Expr)
    requires ParseFactor(x + y) == Ok(a, y) && ParseFactor(y) == Ok(b, [])
    ensures StartsAtom(y) && !y[0].Latex? ==> ParseFull(x + y) == Ok(Mul(a, b), [])
    ensures At(y, Op(Minus)) ==> var p := ParseFull(x + y); p.Ok? ==> p.tree.Add? || p.tree.Sub?
  {
    hide ParseFactor;
    if At(y, Op(Minus)) {
      assert ParseTerm(x + y) == Ok(a, y);
      LoopIsSum(a, y);
    } else if StartsAtom(y) && !y[0].Latex? {
      assert TermLoop(Mul(a, b), []) == Ok(Mul(a, b), []);
      assert ParseTerm(x + y) == Ok(Mul(a, b), []);
      assert ParseExpr(x + y) == Ok(Mul(a, b), []);
    }
  }

  /** Leaving out the sign of a printed product changes nothing exactly if its second factor does not open with a minus
      sign, which would then be read as a subtraction. */
  lemma {:induction false} ImplicitProduct(a: Expr, b: Expr)
    requires Readable(a) && Readable(b)
    ensures ParseFull(Render(a, 3) + Render(b, 3)) == ParseFull(Render(Mul(a, b), 0)) <==> !At(Render(b, 3), Op(Minus))
    ensures ParseFull(Render(Mul(a, b), 0)) == Ok(Mul(Reparse(a), Reparse(b)), [])
  {
    OpensPrinted(b, 3);
    RoundTripProduct(a, b);
    hide Render, Reparse, ParseFactor, ParseFull;
    var ts := Render(b, 3);
    assert ts + [] == ts;
    FactorReadsPrinted(a, ts);
    FactorReadsPrinted(b, []);
    TwoFactors(Render(a, 3), ts, Reparse(a), Reparse(b));
  }

  lemma {:induction false} RoundTripProduct(a: Expr, b: Expr)
    requires Readable(a) && Readable(b)
    ensures ParseFull(Render(Mul(a, b), 0)) == Ok(Mul(Reparse(a), Reparse(b)), [])
  {
    ExprReadsPrinted(Mul(a, b), 0, []);
    assert Render(Mul(a, b), 0) + [] == Render(Mul(a, b), 0);
  }
}
