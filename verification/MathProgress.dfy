/** The "expression in progress" check that keeps the calculator window open while typing. */
module MathProgress {
  import opened MathSyntax
  import opened MathGrammar
  import opened MathStreams
  import opened MathChains
  import opened MathReading
  import opened MathNotation

  const FUNCTION_NAMES := {
    "sqrt", "cbrt", "abs", "sign", "sin", "cos", "tan", "asin", "acos", "atan",
    "sinh", "cosh", "tanh", "ln", "log", "log2", "log10", "exp",
    "floor", "ceil", "round", "trunc", "mod", "min", "max"}

  const KEYWORDS := {
    "pi", "tau", "e", "infinity", "frac", "dfrac", "sqrt",
    "sin", "cos", "tan", "asin", "acos", "atan",
    "sinh", "cosh", "tanh", "ln", "log", "log2", "log10",
    "exp", "abs", "floor", "ceil", "round", "trunc", "sign",
    "cbrt", "min", "max", "mod"}

  /** Arguments the evaluator indexes without checking. */
  function MinimumArity(name: string): nat {
    if name == "min" || name == "max" then 0 else if name == "mod" then 2 else 1
  }

  /** The evaluator yields a number: every call is of a known function with enough arguments. */
  predicate Evaluates(e: Expr)
    decreases e
  {
    match e
    case Num(_) => true
    case Const(_) => true
    case Neg(a) => Evaluates(a)
    case Sqrt(a) => Evaluates(a)
    case Fact(a) => Evaluates(a)
    case Percent(a) => Evaluates(a)
    case Call(name, args) =>
      && name in FUNCTION_NAMES && |args| >= MinimumArity(name)
      && forall i | 0 <= i < |args| :: Evaluates(args[i])
    case _ => Evaluates(e.a) && Evaluates(e.b)
  }

  predicate StartAllowed(t: Token) {
    match t
    case Number(_) => true
    case LParen => true
    case LBrace => true
    case Op(o) => o == Minus || o == MinusSign || o == Plus
    case Latex(_) => true
    case Name(raw) =>
      var l := Lower(raw);
      l == PI_SIGN || l == ROOT_SIGN || l == INFINITY_SIGN || l in KEYWORDS
    case _ => false
  }

  /** Answers yes exactly on non-empty streams that start like math and never close more than they open. */
  method IsMathInProgress(tokens: seq<Token>) returns (inProgress: bool)
    ensures inProgress <==> InProgress(tokens)
  {
    if tokens == [] || !StartAllowed(tokens[0]) { return false; }
    var depth := 0;
    for i := 0 to |tokens|
      invariant depth == Depth(tokens[..i])
      invariant forall k | 0 <= k <= i :: Depth(tokens[..k]) >= 0
    {
      assert tokens[..i + 1][..i] == tokens[..i];
      if tokens[i].LParen? || tokens[i].LBrace? {
        depth := depth + 1;
      } else if tokens[i].RParen? || tokens[i].RBrace? {
        depth := depth - 1;
        if depth < 0 {
          assert Depth(tokens[..i + 1]) < 0;
          return false;
        }
      }
    }
    return true;
  }

  lemma {:induction false} EvaluatesKnowsMentioned(e: Expr, name: string)
    requires Evaluates(e) && Mentions(e, name)
    ensures name in FUNCTION_NAMES
    decreases e
  {
    match e
    case Num(_) =>
    case Const(_) =>
    case Neg(a) => EvaluatesKnowsMentioned(a, name);
    case Sqrt(a) => EvaluatesKnowsMentioned(a, name);
    case Fact(a) => EvaluatesKnowsMentioned(a, name);
    case Percent(a) => EvaluatesKnowsMentioned(a, name);
    case Call(n, args) =>
      if n != name {
        var i :| 0 <= i < |args| && Mentions(args[i], name);
        EvaluatesKnowsMentioned(args[i], name);
      }
    case _ =>
      if Mentions(e.a, name) {
        EvaluatesKnowsMentioned(e.a, name);
      } else {
        EvaluatesKnowsMentioned(e.b, name);
      }
  }

  ghost predicate InProgress(tokens: seq<Token>) {
    |tokens| > 0 && StartAllowed(tokens[0]) && NeverNegative(tokens)
  }

  /** Every non-empty prefix of an accepted stream is in progress, except that a stream
      that opens with a function the check does not list never is. */
  lemma {:induction false} PrefixInProgress(tokens: seq<Token>, typed: nat)
    requires ParseFull(tokens).Ok?
    requires 0 < typed <= |tokens|
    ensures InProgress(tokens[..typed]) <==>
      (tokens[0].Name? && Classify(Lower(tokens[0].raw)).FunctionName? ==> Lower(tokens[0].raw) in KEYWORDS)
  {
    AcceptedIsBalanced(tokens);
    forall k | 0 <= k <= typed ensures Depth(tokens[..typed][..k]) >= 0 {
      assert tokens[..typed][..k] == tokens[..k];
    }
    ExprSound(tokens);
  }

  /** While an expression that will evaluate is being typed token by token, the window never closes. */
  lemma {:induction false} NoFlicker(tokens: seq<Token>, typed: nat)
    requires ParseFull(tokens).Ok? && Evaluates(ParseFull(tokens).tree)
    requires 0 < typed <= |tokens|
    ensures InProgress(tokens[..typed])
  {
    ExprSound(tokens);
    if !OpensMath(tokens[0]) {
      EvaluatesKnowsMentioned(ParseFull(tokens).tree, Lower(tokens[0].raw));
    }
    PrefixInProgress(tokens, typed);
  }

  // ---- What may come first ----

  /** Some continuation makes an expression that evaluates. */
  ghost predicate Continues(t: Token) {
    exists rest: seq<Token> :: CompletesTo(t, rest)
  }

  predicate CompletesTo(t: Token, rest: seq<Token>) {
    var p := ParseFull([t] + rest);
    p.Ok? && Evaluates(p.tree)
  }

  lemma {:induction false} CompletedBy(t: Token, rest: seq<Token>, tree: Expr)
    requires ParseFull([t] + rest) == Ok(tree, []) && Evaluates(tree)
    ensures Continues(t)
  {
    assert CompletesTo(t, rest);
  }

  lemma {:induction false} NameContinues(raw: string)
    requires StartAllowed(Name(raw))
    ensures Continues(Name(raw))
  {
    var l, one := Lower(raw), Num(1.0);
    assert Readable(one) && Reparse(one) == one;
    ReservedNames(l);
    if Classify(l).ConstantName? {
      ConstantNames(l);
      ConstantReads(raw);
      assert [Name(raw)] + [] == [Name(raw)];
      CompletedBy(Name(raw), [], ParseFull([Name(raw)]).tree);
    } else if l == "frac" || l == "dfrac" {
      FractionReads(one, one, raw);
      CompletedBy(Name(raw), InBraces(Render(one, 0)) + InBraces(Render(one, 0)), Frac(one, one));
    } else if l == "sqrt" || l == ROOT_SIGN {
      RootReads(one, raw);
      CompletedBy(Name(raw), InParens(Render(one, 0)), Sqrt(one));
    } else {
      TwoArguments(raw, one);
    }
  }

  lemma {:induction false} ConstantNames(l: string)
    ensures Classify(l).ConstantName? <==> l in ["pi", PI_SIGN, "tau", "e", "infinity", INFINITY_SIGN]
  {
    assert "min"[0] == 'm' && "pi"[0] == 'p' && "tau"[0] == 't' && "e"[0] == 'e' && "infinity"[0] == 'i';
    assert "frac"[0] == 'f' && "dfrac"[0] == 'd' && "sqrt"[0] == 's' && |PI_SIGN| == 1 && |INFINITY_SIGN| == 1;
  }

  lemma {:induction false} TwoRead(one: Expr)
    requires one.Num?
    ensures ReparseArgs([one, one]) == [one, one]
  {
    assert [one, one][1..] == [one] && [one][1..] == [] && Reparse(one) == one;
    hide Reparse;
    assert ReparseArgs([]) == [];
    assert ReparseArgs([one]) == [one];
  }

  lemma {:induction false} TwoArguments(raw: string, one: Expr)
    requires one == Num(1.0) && Lower(raw) in KEYWORDS && !Reserved(Lower(raw))
    ensures Continues(Name(raw))
  {
    var l := Lower(raw);
    var call := Call(l, [one, one]);
    LowerIdempotent(raw);
    ReservedNames(l);
    TwoRead(one);
    assert Callable(l);
    hide Callable, Classify, Lower;
    assert CallsReadable(one) && TauFree(one) && forall i | 0 <= i < |call.args| :: call.args[i] == one;
    assert Reparse(call) == Call(l, ReparseArgs([one, one])) && Readable(call);
    CallReadsPrinted(call, []);
    var tail := [LParen] + RenderArgs([one, one]) + [RParen];
    assert Render(call, 0) + [] == [Name(l)] + tail;
    hide Render, RenderArgs, Reparse, ParseList, ParseFunctionCall;
    assert ([Name(l)] + tail)[1..] == tail && ([Name(raw)] + tail)[1..] == tail;
    assert ParseName(raw, tail) == ParseName(l, tail);
    hide ParseName;
    AtomAlone([Name(raw)] + tail, call);
    CompletedBy(Name(raw), tail, call);
  }

  lemma {:induction false} OneNumber(x: real)
    ensures ParseFull([Number(x)]) == Ok(Num(x), [])
  {
    assert [Number(x)][1..] == [];
    AtomAlone([Number(x)], Num(x));
  }

  lemma {:induction false} SignContinues(o: Op)
    requires o == Plus || o == Minus || o == MinusSign
    ensures Continues(Op(o))
  {
    var one, ts := Num(1.0), [Op(o)] + [Number(1.0)];
    OneNumber(1.0);
    if o == Plus {
      PlusSignIsNothing([Number(1.0)]);
      CompletedBy(Op(o), [Number(1.0)], one);
    } else {
      assert ts[1..] == [Number(1.0)] && [Number(1.0)][1..] == [];
      assert ParseAtom([Number(1.0)]) == Ok(one, []);
      assert ParseUnary(ts) == Ok(Neg(one), []);
      assert ParsePostfix(ts) == Ok(Neg(one), []);
      assert ParseFactor(ts) == Ok(Neg(one), []);
      assert ParseTerm(ts) == Ok(Neg(one), []);
      assert ParseExpr(ts) == Ok(Neg(one), []);
      CompletedBy(Op(o), [Number(1.0)], Neg(one));
    }
  }

  lemma {:induction false} GroupContinues(t: Token)
    requires t == LParen || t == LBrace || t.Number?
    ensures Continues(t)
  {
    var one := Num(1.0);
    assert Readable(one) && Reparse(one) == one;
    if t.Number? {
      OneNumber(t.value);
      assert [t] + [] == [t];
      CompletedBy(t, [], Num(t.value));
    } else {
      GroupIsItself(one);
      CompletedBy(t, Render(one, 0) + ([if t.LParen? then RParen else RBrace] + []), one);
    }
  }

  /** Of the first tokens other than commands, the check allows exactly those with which some expression begins that
      evaluates; it allows every command. */
  lemma {:induction false} StartIffContinues(t: Token)
    ensures if t.Latex? then StartAllowed(t) else StartAllowed(t) <==> Continues(t)
  {
    if StartAllowed(t) {
      match t
      case Name(raw) => NameContinues(raw);
      case Op(o) => SignContinues(o);
      case Latex(_) =>
      case _ => GroupContinues(t);
    } else if Continues(t) {
      var rest: seq<Token> :| CompletesTo(t, rest);
      assert ([t] + rest)[..1][0] == t;
      NoFlicker([t] + rest, 1);
    }
  }
}
