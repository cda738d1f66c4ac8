/** The parser reads what the printer prints of a tree as its chain says. */
module MathReading {
  import opened MathSyntax
  import opened MathGrammar
  import opened MathStreams
  import opened MathChains

  // ---- Chains ----

  ghost predicate AtomParses(toks: seq<Token>, tree: Expr) {
    && |toks| > 0
    && !toks[0].Op?
    && toks[0] != LBrace
    && (forall rest :: ParseAtom(toks + rest) == Ok(tree, rest))
    && (toks[0] == LParen ==> forall rest :: AsOne(ParseCommaArgs(toks + rest)) == Ok(tree, rest))
  }

  ghost predicate LinkParses(l: Link) { AtomParses(l.toks, l.tree) }
  ghost predicate ChainParses(ch: Chain) { forall i | 0 <= i < |ch| :: LinkParses(ch[i]) }

  predicate PostfixStop(ts: seq<Token>) { !At(ts, Op(Bang)) && !At(ts, Op(PercentSign)) }
  predicate FactorStop(ts: seq<Token>) { PostfixStop(ts) && !At(ts, Op(Caret)) }
  predicate TermStop(ts: seq<Token>) { FactorStop(ts) && NextTermStep(ts).Stop? }
  predicate ExprStop(ts: seq<Token>) {
    TermStop(ts) && !At(ts, Op(Plus)) && !At(ts, Op(Minus)) && !At(ts, Op(MinusSign))
  }

  lemma {:induction false} RootIsRoot()
    ensures Classify(Lower(ROOT_SIGN)) == RootName
  {
    assert Lower(ROOT_SIGN) == ROOT_SIGN;
  }

  lemma {:induction false} UnaryReadsPrefixes(pre: seq<bool>, toks: seq<Token>, tree: Expr, rest: seq<Token>)
    requires AtomParses(toks, tree)
    ensures ParseUnary(PreTokens(pre) + toks + rest) == Ok(ApplyPre(pre, tree), rest)
    decreases |pre|
  {
    var ts := PreTokens(pre) + toks + rest;
    if pre == [] {
      assert ts == toks + rest;
    } else {
      var inner := PreTokens(pre[1..]) + toks + rest;
      assert ts[0] == PreToken(pre[0]);
      assert ts[1..] == inner;
      UnaryReadsPrefixes(pre[1..], toks, tree, rest);
      if pre[0] {
        RootIsRoot();
        if pre[1..] == [] {
          assert inner == toks + rest;
        } else {
          assert inner[0] == PreToken(pre[1]);
        }
        assert ParseRoot(inner) == Ok(Sqrt(ApplyPre(pre[1..], tree)), rest);
        assert ParseAtom(ts) == ParseName(ROOT_SIGN, inner);
      } else {
        assert At(ts, Op(Minus));
        assert ParseUnary(inner) == Ok(ApplyPre(pre[1..], tree), rest);
      }
    }
  }

  lemma {:induction false} LoopReadsPostfixes(e: Expr, done: seq<bool>, post: seq<bool>, rest: seq<Token>)
    requires PostfixStop(rest)
    ensures PostfixLoop(ApplyPost(e, done), PostTokens(post) + rest) == Ok(ApplyPost(e, done + post), rest)
    decreases |post|
  {
    var ts := PostTokens(post) + rest;
    if post == [] {
      assert ts == rest && done + post == done;
    } else {
      assert ts[0] == PostToken(post[0]);
      assert ts[1..] == PostTokens(post[1..]) + rest;
      var done' := done + [post[0]];
      assert done'[..|done|] == done;
      LoopReadsPostfixes(e, done', post[1..], rest);
      assert done' + post[1..] == done + post;
    }
  }

  lemma {:induction false} PostfixReadsLink(l: Link, rest: seq<Token>)
    requires LinkParses(l) && PostfixStop(rest)
    ensures ParsePostfix(LinkTokens(l) + rest) == Ok(LinkTree(l), rest)
  {
    var tail := PostTokens(l.post) + rest;
    assert LinkTokens(l) + rest == PreTokens(l.pre) + l.toks + tail;
    UnaryReadsPrefixes(l.pre, l.toks, l.tree, tail);
    LoopReadsPostfixes(ApplyPre(l.pre, l.tree), [], l.post, rest);
    assert [] + l.post == l.post;
  }

  lemma {:induction false} FactorReadsChain(ch: Chain, rest: seq<Token>)
    requires ChainParses(ch) && FactorStop(rest)
    ensures ParseFactor(ChainTokens(ch) + rest) == Ok(Assemble(ch), rest)
    decreases |ch|
  {
    assert LinkParses(ch[0]);
    if |ch| == 1 {
      PostfixReadsLink(ch[0], rest);
    } else {
      var after := ChainTokens(ch[1..]) + rest;
      var tail := [Op(Caret)] + after;
      assert ChainTokens(ch) + rest == LinkTokens(ch[0]) + tail;
      PostfixReadsLink(ch[0], tail);
      assert tail[1..] == after;
      FactorReadsChain(ch[1..], rest);
    }
  }

  /** A binary operation printed without parentheses at the given precedence (at most 2). */
  ghost predicate Bare(e: Expr, minPrec: nat) {
    ((e.Add? || e.Sub?) && minPrec < 2) || e.Mul? || e.Div? || e.Frac?
  }

  /** What printing then parsing gives at each of the three printing contexts. */
  lemma {:induction false} FactorReadsPrinted(e: Expr, rest: seq<Token>)
    requires Readable(e) && FactorStop(rest)
    ensures ParseFactor(Render(e, 3) + rest) == Ok(Reparse(e), rest)
    decreases e, 8
  {
    PrintsAsChain(e, false);
    PrintedChainParses(e, false);
    FactorReadsChain(ChainOf(e, false), rest);
  }

  lemma {:induction false} TermReadsPrinted(e: Expr, minPrec: nat, rest: seq<Token>)
    requires Readable(e) && TermStop(rest)
    requires minPrec <= 2
    requires (e.Add? || e.Sub?) ==> minPrec == 2
    ensures ParseTerm(Render(e, minPrec) + rest) == Ok(Reparse(e), rest)
    decreases e, if Bare(e, minPrec) then 1 else 9
  {
    match e {
      case Mul(a, b) => ProductReadsPrinted(a, b, Times, e, rest);
      case Div(a, b) => ProductReadsPrinted(a, b, Slash, e, rest);
      case Frac(a, b) => ProductReadsPrinted(a, b, Slash, e, rest);
      case _ =>
        assert Render(e, minPrec) == Render(e, 3);
        FactorReadsPrinted(e, rest);
    }
  }

  lemma {:induction false} ProductReadsPrinted(a: Expr, b: Expr, op: Op, e: Expr, rest: seq<Token>)
    requires Readable(a) && Readable(b) && TermStop(rest)
    requires a < e && b < e
    requires op == Times || op == Slash
    ensures ParseTerm(Render(a, 3) + [Op(op)] + Render(b, 3) + rest)
         == Ok(if op == Times then Mul(Reparse(a), Reparse(b)) else Div(Reparse(a), Reparse(b)), rest)
    decreases e, 0
  {
    hide Render, Reparse, ParseFactor;
    var after := Render(b, 3) + rest;
    var tail := [Op(op)] + after;
    assert Render(a, 3) + [Op(op)] + Render(b, 3) + rest == Render(a, 3) + tail;
    FactorReadsPrinted(a, tail);
    assert tail[1..] == after;
    FactorReadsPrinted(b, rest);
    var whole := if op == Times then Mul(Reparse(a), Reparse(b)) else Div(Reparse(a), Reparse(b));
    assert TermLoop(whole, rest) == Ok(whole, rest);
    assert TermLoop(Reparse(a), tail) == Ok(whole, rest);
  }

  lemma {:induction false} ExprReadsPrinted(e: Expr, minPrec: nat, rest: seq<Token>)
    requires Readable(e) && ExprStop(rest)
    requires minPrec <= 2
    ensures ParseExpr(Render(e, minPrec) + rest) == Ok(Reparse(e), rest)
    decreases e, if Bare(e, minPrec) then 2 else 10
  {
    if (e.Add? || e.Sub?) && minPrec < 2 {
      var op := if e.Add? then Plus else Minus;
      var after := Render(e.b, 2) + rest;
      var tail := [Op(op)] + after;
      assert Render(e, minPrec) + rest == Render(e.a, 2) + tail;
      TermReadsPrinted(e.a, 2, tail);
      assert tail[1..] == after;
      TermReadsPrinted(e.b, 2, rest);
      assert ExprLoop(Reparse(e), rest) == Ok(Reparse(e), rest);
      assert ExprLoop(Reparse(e.a), tail) == Ok(Reparse(e), rest);
    } else {
      TermReadsPrinted(e, minPrec, rest);
    }
  }

  lemma {:induction false} ArgsLoopStep(done: seq<Expr>, ts: seq<Token>, e: Expr, next: Token, after: seq<Token>)
    requires ParseExpr(ts) == Ok(e, [next] + after)
    ensures next == Op(Comma) ==> ArgsLoop(done, ts) == ArgsLoop(done + [e], after)
    ensures next == RParen ==> ArgsLoop(done, ts) == OkArgs(done + [e], after)
  {
    assert ([next] + after)[1..] == after;
  }

  ghost predicate ArgsRead(args: seq<Expr>, done: seq<Expr>, rest: seq<Token>) {
    ArgsLoop(done, RenderArgs(args) + ([RParen] + rest)) == OkArgs(done + ReparseArgs(args), rest)
  }

  lemma {:induction false} ArgsReadPrinted(args: seq<Expr>, done: seq<Expr>, rest: seq<Token>)
    requires |args| > 0
    requires forall i | 0 <= i < |args| :: Readable(args[i])
    ensures ArgsRead(args, done, rest)
    decreases args, 12
  {
    if |args| == 1 {
      LastArgReadPrinted(args, done, rest);
    } else {
      ArgsReadPrinted(args[1..], done + [Reparse(args[0])], rest);
      MoreArgsReadPrinted(args, done, rest);
    }
  }

  lemma {:induction false} LastArgReadPrinted(args: seq<Expr>, done: seq<Expr>, rest: seq<Token>)
    requires |args| == 1 && Readable(args[0])
    ensures ArgsRead(args, done, rest)
    decreases args, 11
  {
    var close := [RParen] + rest;
    ExprReadsPrinted(args[0], 2, close);
    ArgsLoopStep(done, Render(args[0], 2) + close, Reparse(args[0]), RParen, rest);
    assert ReparseArgs(args) == [Reparse(args[0])] by { assert ReparseArgs(args[1..]) == []; }
  }

  lemma {:induction false} MoreArgsReadPrinted(args: seq<Expr>, done: seq<Expr>, rest: seq<Token>)
    requires |args| > 1 && Readable(args[0])
    requires ArgsRead(args[1..], done + [Reparse(args[0])], rest)
    ensures ArgsRead(args, done, rest)
    decreases args, 11
  {
    hide Render, RenderArgs, ParseExpr, Reparse;
    var others, close := args[1..], [RParen] + rest;
    ExprReadsPrinted(args[0], 2, [Op(Comma)] + (RenderArgs(others) + close));
    var done' := done + [Reparse(args[0])];
    ArgsJoin(args, done, close, OkArgs(done' + ReparseArgs(others), rest));
    assert done' + ReparseArgs(others) == done + ReparseArgs(args);
  }

  lemma {:induction false} ArgsJoin(args: seq<Expr>, done: seq<Expr>, close: seq<Token>, r: ParsedArgs)
    requires |args| > 1
    requires var after := [Op(Comma)] + (RenderArgs(args[1..]) + close);
             ParseExpr(Render(args[0], 2) + after) == Ok(Reparse(args[0]), after)
    requires ArgsLoop(done + [Reparse(args[0])], RenderArgs(args[1..]) + close) == r
    ensures ArgsLoop(done, RenderArgs(args) + close) == r
  {
    var after := RenderArgs(args[1..]) + close;
    var ts := Render(args[0], 2) + ([Op(Comma)] + after);
    assert RenderArgs(args) + close == ts;
    ArgsLoopStep(done, ts, Reparse(args[0]), Op(Comma), after);
  }

  lemma {:induction false} CallReadsPrinted(e: Expr, rest: seq<Token>)
    requires e.Call? && Readable(e)
    ensures ParseAtom(Render(e, 0) + rest) == Ok(Reparse(e), rest)
    decreases e, 0
  {
    var inner := RenderArgs(e.args) + ([RParen] + rest);
    var tail := [LParen] + inner;
    var ts := Render(e, 0) + rest;
    assert ts == [Name(e.name)] + tail;
    assert ts[0] == Name(e.name) && ts[1..] == tail && tail[1..] == inner;
    if e.args == [] {
      assert inner == [RParen] + rest;
      assert tail[2..] == rest;
    } else {
      RenderStartsOpen(e.args[0], 2);
      assert inner[0] == Render(e.args[0], 2)[0];
      ArgsReadPrinted(e.args, [], rest);
      assert [] + ReparseArgs(e.args) == ReparseArgs(e.args);
      assert ParseCommaArgs(tail) == OkArgs(ReparseArgs(e.args), rest);
    }
    assert ParseList(e.name, tail) == Ok(Reparse(e), rest);
    assert ParseName(e.name, tail) == Ok(Reparse(e), rest);
    assert ParseAtom(ts) == ParseName(e.name, tail);
  }

  /** A printed tree starts with a token that can open an expression. */
  lemma {:induction false} RenderStartsOpen(e: Expr, minPrec: nat)
    ensures |Render(e, minPrec)| > 0 && Render(e, minPrec)[0] != RParen
    decreases e
  {
    match e
    case Num(_) =>
    case Const(_) =>
    case Neg(_) =>
    case Sqrt(_) =>
    case Call(_, _) =>
    case Add(a, _) => RenderStartsOpen(a, 2);
    case Sub(a, _) => RenderStartsOpen(a, 2);
    case Mul(a, _) => RenderStartsOpen(a, 3);
    case Div(a, _) => RenderStartsOpen(a, 3);
    case Frac(a, _) => RenderStartsOpen(a, 3);
    case Pow(a, _) => RenderStartsOpen(a, 4);
    case Fact(a) => RenderStartsOpen(a, 4);
    case Percent(a) => RenderStartsOpen(a, 3);
  }

  lemma {:induction false} GroupParses(toks: seq<Token>, tree: Expr)
    requires |toks| > 0 && toks[0] != RParen
    requires forall rest | ExprStop(rest) :: ParseExpr(toks + rest) == Ok(tree, rest)
    ensures AtomParses([LParen] + toks + [RParen], tree)
  {
    var group := [LParen] + toks + [RParen];
    forall rest
      ensures ParseAtom(group + rest) == Ok(tree, rest)
      ensures AsOne(ParseCommaArgs(group + rest)) == Ok(tree, rest)
    {
      var close := [RParen] + rest;
      assert (group + rest)[0] == LParen;
      assert (group + rest)[1..] == toks + close;
      assert (toks + close)[0] == toks[0];
      assert ExprStop(close) && close[1..] == rest;
      assert ParseExpr(toks + close) == Ok(tree, close);
      assert ArgsLoop([], toks + close) == OkArgs([tree], rest);
    }
  }

  lemma {:induction false} ConstantParses(c: Constant)
    requires c != Tau
    ensures AtomParses([ConstantToken(c)], Const(c))
  {
    assert Lower(PI_SIGN) == PI_SIGN && Lower("e") == "e" && Lower(INFINITY_SIGN) == INFINITY_SIGN;
    forall rest ensures ParseAtom([ConstantToken(c)] + rest) == Ok(Const(c), rest) {
      assert ([ConstantToken(c)] + rest)[1..] == rest;
    }
  }

  /** Every atom of a printed chain is read back as the tree it stands for. */
  lemma {:induction false} PrintedChainParses(e: Expr, tight: bool)
    requires Readable(e)
    ensures ChainParses(ChainOf(e, tight))
    decreases e, if e.Neg? && tight then 11 else if Binary(e) then 7 else 5
  {
    match e
    case Neg(a) =>
      if tight {
        forall rest | ExprStop(rest) ensures ParseExpr(Render(e, 0) + rest) == Ok(Reparse(e), rest) {
          ExprReadsPrinted(e, 0, rest);
        }
        RenderStartsOpen(e, 0);
        GroupParses(Render(e, 0), Reparse(e));
      } else {
        PrintedChainParses(a, true);
      }
    case Sqrt(a) => PrintedChainParses(a, true);
    case Pow(a, b) =>
      PrintedChainParses(a, true);
      PrintedChainParses(b, true);
    case Fact(a) => PrintedChainParses(a, true);
    case Percent(a) => PrintedChainParses(a, false);
    case Num(v) =>
      forall rest ensures ParseAtom([Number(v)] + rest) == Ok(e, rest) {
        assert ([Number(v)] + rest)[1..] == rest;
      }
    case Const(c) => ConstantParses(c);
    case Call(_, _) =>
      forall rest ensures ParseAtom(Render(e, 0) + rest) == Ok(Reparse(e), rest) {
        CallReadsPrinted(e, rest);
      }
    case _ =>
      forall rest | ExprStop(rest) ensures ParseExpr(Render(e, 0) + rest) == Ok(Reparse(e), rest) {
        ExprReadsPrinted(e, 0, rest);
      }
      RenderStartsOpen(e, 0);
      GroupParses(Render(e, 0), Reparse(e));
  }
}
