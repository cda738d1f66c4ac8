/**
 What acceptance by the parser says about the tokens it read: brackets balance, and
 the names in the tree come from the names in the stream.
 */
module MathStreams {
  import opened MathSyntax
  import opened MathGrammar

  // ---- Bracket depth ----

  function Delta(t: Token): int {
    if t.LParen? || t.LBrace? then 1 else if t.RParen? || t.RBrace? then -1 else 0
  }

  function Depth(ts: seq<Token>): int {
    if ts == [] then 0 else Depth(ts[..|ts| - 1]) + Delta(ts[|ts| - 1])
  }

  /** No prefix closes more groups than it opened. */
  ghost predicate NeverNegative(ts: seq<Token>) {
    forall k | 0 <= k <= |ts| :: Depth(ts[..k]) >= 0
  }

  ghost predicate Balanced(ts: seq<Token>) {
    Depth(ts) == 0 && NeverNegative(ts)
  }

  lemma {:induction false} DepthConcat(a: seq<Token>, b: seq<Token>)
    ensures Depth(a + b) == Depth(a) + Depth(b)
    decreases |b|
  {
    if b == [] {
      assert a + b == a;
    } else {
      assert (a + b)[..|a + b| - 1] == a + b[..|b| - 1];
      DepthConcat(a, b[..|b| - 1]);
    }
  }

  lemma {:induction false} BalancedConcat(a: seq<Token>, b: seq<Token>)
    requires Balanced(a) && Balanced(b)
    ensures Balanced(a + b)
  {
    DepthConcat(a, b);
    forall k | 0 <= k <= |a + b| ensures Depth((a + b)[..k]) >= 0 {
      if k <= |a| {
        assert (a + b)[..k] == a[..k];
      } else {
        assert (a + b)[..k] == a + b[..k - |a|];
        DepthConcat(a, b[..k - |a|]);
      }
    }
  }

  lemma {:induction false} BalancedGroup(open: Token, c: seq<Token>, close: Token)
    requires Delta(open) == 1 && Delta(close) == -1 && Balanced(c)
    ensures Balanced([open] + c + [close])
  {
    var g := [open] + c + [close];
    assert Depth([open]) == 1 && Depth([close]) == -1 by {
      assert Depth([open][..0]) == 0 && Depth([close][..0]) == 0;
    }
    DepthConcat([open], c);
    DepthConcat([open] + c, [close]);
    forall k | 0 <= k <= |g| ensures Depth(g[..k]) >= 0 {
      if 0 < k < |g| {
        assert g[..k] == [open] + c[..k - 1];
        DepthConcat([open], c[..k - 1]);
      } else if k == |g| {
        assert g[..k] == g;
      }
    }
  }

  // ---- The tokens between a stream and its remainder ----

  /** `rest` is what is left of `ts` after a balanced prefix. */
  ghost predicate Span(ts: seq<Token>, rest: seq<Token>) {
    && |rest| <= |ts|
    && rest == ts[|ts| - |rest|..]
    && Balanced(ts[..|ts| - |rest|])
  }

  lemma {:induction false} SpanTrans(ts: seq<Token>, mid: seq<Token>, rest: seq<Token>)
    requires Span(ts, mid) && Span(mid, rest)
    ensures Span(ts, rest)
  {
    var a, b := ts[..|ts| - |mid|], mid[..|mid| - |rest|];
    BalancedConcat(a, b);
    assert ts[..|ts| - |rest|] == a + b;
  }

  lemma {:induction false} SpanToken(ts: seq<Token>)
    requires |ts| > 0 && Delta(ts[0]) == 0
    ensures Span(ts, ts[1..])
  {
    var c := ts[..1];
    assert c[..0] == [] && c[..1] == c;
    assert Depth(c) == 0;
    forall k | 0 <= k <= |c| ensures Depth(c[..k]) >= 0 {
      assert k == 0 || k == 1;
    }
  }

  lemma {:induction false} SpanGroup(ts: seq<Token>, mid: seq<Token>)
    requires |ts| > 0 && Delta(ts[0]) == 1
    requires Span(ts[1..], mid) && |mid| > 0 && Delta(mid[0]) == -1
    ensures Span(ts, mid[1..])
  {
    var c := ts[1..][..|ts| - 1 - |mid|];
    BalancedGroup(ts[0], c, mid[0]);
    assert ts[..|ts| - |mid| + 1] == [ts[0]] + c + [mid[0]];
  }

  /** `rest` is what is left of `ts` after the end of a group that is already open. */
  ghost predicate Closes(ts: seq<Token>, rest: seq<Token>) {
    && |rest| <= |ts|
    && rest == ts[|ts| - |rest|..]
    && Balanced([LParen] + ts[..|ts| - |rest|])
  }

  lemma {:induction false} ClosesAfter(ts: seq<Token>, mid: seq<Token>)
    requires Span(ts, mid) && At(mid, RParen)
    ensures Closes(ts, mid[1..])
  {
    var c := ts[..|ts| - |mid|];
    BalancedGroup(LParen, c, RParen);
    assert [LParen] + ts[..|ts| - |mid| + 1] == [LParen] + c + [RParen];
  }

  lemma {:induction false} ClosesTrans(ts: seq<Token>, mid: seq<Token>, rest: seq<Token>)
    requires Span(ts, mid) && Closes(mid, rest)
    ensures Closes(ts, rest)
  {
    var a, b := ts[..|ts| - |mid|], mid[..|mid| - |rest|];
    BalancedInsideGroup(a, b);
    assert [LParen] + ts[..|ts| - |rest|] == [LParen] + a + b;
  }

  lemma {:induction false} BalancedInsideGroup(a: seq<Token>, b: seq<Token>)
    requires Balanced(a) && Balanced([LParen] + b)
    ensures Balanced([LParen] + a + b)
  {
    var g := [LParen] + a + b;
    DepthConcat([LParen], a);
    DepthConcat([LParen], b);
    DepthConcat([LParen] + a, b);
    assert Depth([LParen]) == 1 by { assert Depth([LParen][..0]) == 0; }
    forall k | 0 <= k <= |g| ensures Depth(g[..k]) >= 0 {
      if 0 < k <= |a| {
        assert g[..k] == [LParen] + a[..k - 1];
        DepthConcat([LParen], a[..k - 1]);
      } else if k > |a| {
        var j := k - 1 - |a|;
        assert g[..k] == [LParen] + a + b[..j];
        DepthConcat([LParen] + a, b[..j]);
        DepthConcat([LParen], b[..j]);
        assert ([LParen] + b)[..j + 1] == [LParen] + b[..j];
      }
    }
  }

  // ---- Names ----

  predicate LatexFree(ts: seq<Token>) { forall i | 0 <= i < |ts| :: !ts[i].Latex? }

  /** No token that the parser would read as the constant tau. */
  predicate TauFreeTokens(ts: seq<Token>) {
    LatexFree(ts) && forall i | 0 <= i < |ts| :: ts[i].Name? ==> Lower(ts[i].raw) != "tau"
  }

  /** Every call in the tree has a name the parser reads back as a call. */
  predicate CallsReadable(e: Expr)
    decreases e
  {
    match e
    case Num(_) => true
    case Const(_) => true
    case Neg(a) => CallsReadable(a)
    case Sqrt(a) => CallsReadable(a)
    case Fact(a) => CallsReadable(a)
    case Percent(a) => CallsReadable(a)
    case Call(name, args) => Callable(name) && forall i | 0 <= i < |args| :: CallsReadable(args[i])
    case _ => CallsReadable(e.a) && CallsReadable(e.b)
  }

  predicate TauFree(e: Expr)
    decreases e
  {
    match e
    case Num(_) => true
    case Const(c) => c != Tau
    case Neg(a) => TauFree(a)
    case Sqrt(a) => TauFree(a)
    case Fact(a) => TauFree(a)
    case Percent(a) => TauFree(a)
    case Call(_, args) => forall i | 0 <= i < |args| :: TauFree(args[i])
    case _ => TauFree(e.a) && TauFree(e.b)
  }

  /** The tree contains a call of the given name. */
  predicate Mentions(e: Expr, name: string)
    decreases e
  {
    match e
    case Num(_) => false
    case Const(_) => false
    case Neg(a) => Mentions(a, name)
    case Sqrt(a) => Mentions(a, name)
    case Fact(a) => Mentions(a, name)
    case Percent(a) => Mentions(a, name)
    case Call(n, args) => n == name || exists i | 0 <= i < |args| :: Mentions(args[i], name)
    case _ => Mentions(e.a, name) || Mentions(e.b, name)
  }

  /** A token that, first in a stream, makes it start like math whatever follows. */
  predicate OpensMath(t: Token) {
    match t
    case Number(_) => true
    case LParen => true
    case LBrace => true
    case Latex(_) => true
    case Op(o) => o == Minus || o == MinusSign || o == Plus
    case Name(raw) => var c := Classify(Lower(raw)); !c.ListName? && !c.FunctionName?
    case _ => false
  }

  lemma {:induction false} LowerIdempotent(s: string)
    ensures Lower(Lower(s)) == Lower(s)
  {
  }

  // ---- The invariant of every parser level ----

  ghost predicate TreeFrom(ts: seq<Token>, e: Expr) {
    && (LatexFree(ts) ==> CallsReadable(e))
    && (TauFreeTokens(ts) ==> TauFree(e))
  }

  ghost predicate HeadFrom(ts: seq<Token>, e: Expr) {
    |ts| > 0 && (OpensMath(ts[0]) || (ts[0].Name? && Mentions(e, Lower(ts[0].raw))))
  }

  ghost predicate Sound(ts: seq<Token>, p: Parsed) {
    p.Ok? ==> Span(ts, p.rest) && TreeFrom(ts, p.tree)
  }

  ghost predicate SoundHead(ts: seq<Token>, p: Parsed) {
    Sound(ts, p) && (p.Ok? ==> HeadFrom(ts, p.tree))
  }

  /** The invariant of a loop that extends `lhs`. */
  ghost predicate Extends(lhs: Expr, ts: seq<Token>, p: Parsed) {
    p.Ok? ==>
      && Span(ts, p.rest)
      && (LatexFree(ts) && CallsReadable(lhs) ==> CallsReadable(p.tree))
      && (TauFreeTokens(ts) && TauFree(lhs) ==> TauFree(p.tree))
      && (forall n :: Mentions(lhs, n) ==> Mentions(p.tree, n))
  }

  ghost predicate ArgsFrom(args: seq<Expr>, ts: seq<Token>, trees: seq<Expr>) {
    && (LatexFree(ts) && (forall i | 0 <= i < |args| :: CallsReadable(args[i]))
        ==> forall i | 0 <= i < |trees| :: CallsReadable(trees[i]))
    && (TauFreeTokens(ts) && (forall i | 0 <= i < |args| :: TauFree(args[i]))
        ==> forall i | 0 <= i < |trees| :: TauFree(trees[i]))
  }

  ghost predicate SoundCall(name: string, ts: seq<Token>, p: Parsed) {
    p.Ok? ==>
      && Span(ts, p.rest)
      && (LatexFree(ts) && Callable(name) ==> CallsReadable(p.tree))
      && (TauFreeTokens(ts) ==> TauFree(p.tree))
      && Mentions(p.tree, name)
  }

  lemma {:induction false} SpanKeepsTokens(ts: seq<Token>, rest: seq<Token>)
    requires Span(ts, rest)
    ensures LatexFree(ts) ==> LatexFree(rest)
    ensures TauFreeTokens(ts) ==> TauFreeTokens(rest)
  {
    var d := |ts| - |rest|;
    assert forall i | 0 <= i < |rest| :: rest[i] == ts[d + i];
  }

  lemma {:induction false} TailKeepsTokens(ts: seq<Token>)
    requires |ts| > 0
    ensures LatexFree(ts) ==> LatexFree(ts[1..])
    ensures TauFreeTokens(ts) ==> TauFreeTokens(ts[1..])
  {
  }

  lemma {:induction false} SpanRefl(ts: seq<Token>)
    ensures Span(ts, ts)
  {
    assert ts[..0] == [];
  }

  lemma {:induction false} ExprSound(ts: seq<Token>)
    ensures SoundHead(ts, ParseExpr(ts))
    decreases |ts|, 9
  {
    TermSound(ts);
    var p := ParseTerm(ts);
    if p.Ok? {
      SpanKeepsTokens(ts, p.rest);
      ExprLoopSound(p.tree, p.rest);
      if ParseExpr(ts).Ok? { SpanTrans(ts, p.rest, ParseExpr(ts).rest); }
    }
  }

  /** One more operand after the operator token at the front of `ts`. */
  lemma {:induction false} ExtendByOperator(lhs: Expr, whole: Expr, ts: seq<Token>, p: Parsed, q: Parsed)
    requires |ts| > 0 && Delta(ts[0]) == 0
    requires p.Ok? && Sound(ts[1..], p) && Extends(whole, p.rest, q)
    requires whole == Add(lhs, p.tree) || whole == Sub(lhs, p.tree)
          || whole == Mul(lhs, p.tree) || whole == Div(lhs, p.tree)
    ensures Extends(lhs, ts, q)
  {
    TailKeepsTokens(ts);
    SpanToken(ts);
    SpanTrans(ts, ts[1..], p.rest);
    SpanKeepsTokens(ts, p.rest);
    if q.Ok? { SpanTrans(ts, p.rest, q.rest); }
  }

  lemma {:induction false} ExprLoopSound(lhs: Expr, ts: seq<Token>)
    ensures Extends(lhs, ts, ExprLoop(lhs, ts))
    decreases |ts|, 8
  {
    if At(ts, Op(Plus)) || At(ts, Op(Minus)) || At(ts, Op(MinusSign)) {
      TermSound(ts[1..]);
      var p := ParseTerm(ts[1..]);
      if p.Ok? {
        var whole := if At(ts, Op(Plus)) then Add(lhs, p.tree) else Sub(lhs, p.tree);
        ExprLoopSound(whole, p.rest);
        ExtendByOperator(lhs, whole, ts, p, ExprLoop(whole, p.rest));
      }
    } else {
      SpanRefl(ts);
    }
  }

  lemma {:induction false} TermSound(ts: seq<Token>)
    ensures SoundHead(ts, ParseTerm(ts))
    decreases |ts|, 7
  {
    FactorSound(ts);
    var p := ParseFactor(ts);
    if p.Ok? {
      SpanKeepsTokens(ts, p.rest);
      TermLoopSound(p.tree, p.rest);
      if ParseTerm(ts).Ok? { SpanTrans(ts, p.rest, ParseTerm(ts).rest); }
    }
  }

  lemma {:induction false} TermLoopSound(lhs: Expr, ts: seq<Token>)
    ensures Extends(lhs, ts, TermLoop(lhs, ts))
    decreases |ts|, 6
  {
    hide ParseFactor, Extends;
    var step := NextTermStep(ts);
    if step.Stop? {
      ExtendNothing(lhs, ts);
    } else if step.Implicit? {
      FactorSound(ts);
      var p := ParseFactor(ts);
      if p.Ok? {
        var whole := Mul(lhs, p.tree);
        TermLoopSound(whole, p.rest);
        ExtendByFactor(lhs, whole, ts, p, TermLoop(whole, p.rest));
      } else {
        FailExtends(lhs, ts);
      }
    } else {
      FactorSound(ts[1..]);
      var p := ParseFactor(ts[1..]);
      if p.Ok? {
        var whole := if step.Multiply? then Mul(lhs, p.tree) else Div(lhs, p.tree);
        TermLoopSound(whole, p.rest);
        ExtendByOperator(lhs, whole, ts, p, TermLoop(whole, p.rest));
      } else {
        FailExtends(lhs, ts);
      }
    }
  }

  lemma FailExtends(lhs: Expr, ts: seq<Token>)
    ensures Extends(lhs, ts, Fail)
  {
  }

  lemma ExtendNothing(lhs: Expr, ts: seq<Token>)
    ensures Extends(lhs, ts, Ok(lhs, ts))
  {
    SpanRefl(ts);
  }

  lemma {:induction false} ExtendByFactor(lhs: Expr, whole: Expr, ts: seq<Token>, p: Parsed, q: Parsed)
    requires p.Ok? && Sound(ts, p) && Extends(whole, p.rest, q) && whole == Mul(lhs, p.tree)
    ensures Extends(lhs, ts, q)
  {
    SpanKeepsTokens(ts, p.rest);
    if q.Ok? { SpanTrans(ts, p.rest, q.rest); }
  }

  lemma {:induction false} FactorSound(ts: seq<Token>)
    ensures SoundHead(ts, ParseFactor(ts))
    decreases |ts|, 5
  {
    PostfixSound(ts);
    var p := ParsePostfix(ts);
    if p.Ok? && At(p.rest, Op(Caret)) {
      var tail := p.rest[1..];
      SpanToken(p.rest);
      SpanTrans(ts, p.rest, tail);
      SpanKeepsTokens(ts, tail);
      FactorSound(tail);
      var q := ParseFactor(tail);
      if q.Ok? { SpanTrans(ts, tail, q.rest); }
    }
  }

  lemma {:induction false} PostfixSound(ts: seq<Token>)
    ensures SoundHead(ts, ParsePostfix(ts))
    decreases |ts|, 4
  {
    UnarySound(ts);
    var p := ParseUnary(ts);
    if p.Ok? {
      PostfixLoopSound(p.tree, p.rest);
      SpanKeepsTokens(ts, p.rest);
      SpanTrans(ts, p.rest, ParsePostfix(ts).rest);
    }
  }

  lemma {:induction false} PostfixLoopSound(e: Expr, ts: seq<Token>)
    ensures Extends(e, ts, PostfixLoop(e, ts))
    decreases |ts|, 0
  {
    if At(ts, Op(Bang)) || At(ts, Op(PercentSign)) {
      var whole := if At(ts, Op(Bang)) then Fact(e) else Percent(e);
      PostfixLoopSound(whole, ts[1..]);
      TailKeepsTokens(ts);
      SpanToken(ts);
      SpanTrans(ts, ts[1..], PostfixLoop(e, ts).rest);
    } else {
      SpanRefl(ts);
    }
  }

  lemma {:induction false} UnarySound(ts: seq<Token>)
    ensures SoundHead(ts, ParseUnary(ts))
    decreases |ts|, 3
  {
    if At(ts, Op(Minus)) || At(ts, Op(MinusSign)) || At(ts, Op(Plus)) {
      UnarySound(ts[1..]);
      TailKeepsTokens(ts);
      SpanToken(ts);
      if ParseUnary(ts).Ok? { SpanTrans(ts, ts[1..], ParseUnary(ts).rest); }
    } else {
      AtomSound(ts);
    }
  }

  lemma {:induction false} AtomSound(ts: seq<Token>)
    ensures SoundHead(ts, ParseAtom(ts))
    decreases |ts|, 2
  {
    if ts != [] && ParseAtom(ts).Ok? {
      TailKeepsTokens(ts);
      match ts[0] {
        case Number(_) => SpanToken(ts);
        case LParen => GroupSound(ts, RParen);
        case LBrace => GroupSound(ts, RBrace);
        case Name(raw) =>
          NameSound(raw, ts[1..]);
          SpanToken(ts);
          SpanTrans(ts, ts[1..], ParseAtom(ts).rest);
        case Latex(cmd) =>
          LatexSound(cmd, ts[1..]);
          SpanToken(ts);
          SpanTrans(ts, ts[1..], ParseAtom(ts).rest);
      }
    }
  }

  lemma {:induction false} GroupSound(ts: seq<Token>, close: Token)
    requires |ts| > 0 && Delta(ts[0]) == 1 && Delta(close) == -1
    ensures Sound(ts, ParseClosed(ts[1..], close))
    decreases |ts|, 1
  {
    TailKeepsTokens(ts);
    ExprSound(ts[1..]);
    var p := ParseExpr(ts[1..]);
    if p.Ok? && At(p.rest, close) { SpanGroup(ts, p.rest); }
  }

  lemma {:induction false} BracedSound(ts: seq<Token>)
    ensures Sound(ts, ParseBraced(ts))
    decreases |ts|, 11
  {
    if At(ts, LBrace) { GroupSound(ts, RBrace); }
  }

  lemma {:induction false} FractionSound(ts: seq<Token>)
    ensures Sound(ts, ParseFraction(ts))
    decreases |ts|, 12
  {
    BracedSound(ts);
    var p := ParseBraced(ts);
    if p.Ok? {
      BracedSound(p.rest);
      SpanKeepsTokens(ts, p.rest);
      var q := ParseBraced(p.rest);
      if q.Ok? { SpanTrans(ts, p.rest, q.rest); }
    }
  }

  ghost predicate SoundName(raw: string, ts: seq<Token>, p: Parsed) {
    p.Ok? ==>
      && Span(ts, p.rest)
      && (LatexFree(ts) ==> CallsReadable(p.tree))
      && (TauFreeTokens(ts) && Lower(raw) != "tau" ==> TauFree(p.tree))
      && (OpensMath(Name(raw)) || Mentions(p.tree, Lower(raw)))
  }

  lemma {:induction false} NameSound(raw: string, ts: seq<Token>)
    ensures SoundName(raw, ts, ParseName(raw, ts))
    decreases |ts|, 14
  {
    LowerIdempotent(raw);
    match Classify(Lower(raw))
    case ConstantName(_) => SpanRefl(ts);
    case FractionName => FractionSound(ts);
    case RootName => RootSound(ts);
    case ListName => ListSound(Lower(raw), ts);
    case FunctionName => FunctionCallSound(Lower(raw), ts);
  }

  lemma {:induction false} RootSound(ts: seq<Token>)
    ensures Sound(ts, ParseRoot(ts))
    decreases |ts|, 13
  {
    if At(ts, LParen) {
      CommaArgsSound(ts);
    } else if At(ts, LBrace) {
      BracedSound(ts);
    } else {
      UnarySound(ts);
    }
  }

  lemma {:induction false} ListSound(name: string, ts: seq<Token>)
    ensures SoundCall(name, ts, ParseList(name, ts))
    decreases |ts|, 12
  {
    CommaArgsSound(ts);
  }

  lemma {:induction false} LatexSound(cmd: string, ts: seq<Token>)
    ensures ParseLatex(cmd, ts).Ok? ==> Span(ts, ParseLatex(cmd, ts).rest)
    decreases |ts|, 14
  {
    SpanRefl(ts);
    FractionSound(ts);
    BracedSound(ts);
    FunctionCallSound(cmd, ts);
  }

  lemma {:induction false} FunctionCallSound(name: string, ts: seq<Token>)
    ensures SoundCall(name, ts, ParseFunctionCall(name, ts))
    decreases |ts|, 13
  {
    ListSound(name, ts);
    BracedSound(ts);
  }

  ghost predicate SoundArgs(ts: seq<Token>, p: ParsedArgs) {
    p.OkArgs? ==> Span(ts, p.rest) && ArgsFrom([], ts, p.trees)
  }

  lemma ConsSlice(ts: seq<Token>, n: nat)
    requires 1 <= n <= |ts|
    ensures ts[..n] == [ts[0]] + ts[1..][..n - 1]
  {
  }

  lemma {:induction false} CommaArgsSound(ts: seq<Token>)
    ensures SoundArgs(ts, ParseCommaArgs(ts))
    decreases |ts|, 11
  {
    hide ArgsLoop, ParseExpr;
    if At(ts, LParen) {
      TailKeepsTokens(ts);
      if At(ts[1..], RParen) {
        SpanRefl(ts[1..]);
        SpanGroup(ts, ts[1..]);
      } else {
        ArgsLoopSound([], ts[1..]);
        var p := ArgsLoop([], ts[1..]);
        if p.OkArgs? {
          var n := |ts| - |p.rest|;
          ConsSlice(ts, n);
        }
      }
    }
  }

  lemma {:induction false} ArgsFromOneMore(args: seq<Expr>, e: Expr, ts: seq<Token>, tail: seq<Token>, trees: seq<Expr>)
    requires TreeFrom(ts, e) && Span(ts, tail) && ArgsFrom(args + [e], tail, trees)
    ensures ArgsFrom(args, ts, trees)
  {
    SpanKeepsTokens(ts, tail);
  }

  lemma {:induction false} ArgsLoopSound(args: seq<Expr>, ts: seq<Token>)
    ensures var p := ArgsLoop(args, ts);
            p.OkArgs? ==> Closes(ts, p.rest) && ArgsFrom(args, ts, p.trees)
    decreases |ts|, 10
  {
    ExprSound(ts);
    var p := ParseExpr(ts);
    if p.Ok? {
      if At(p.rest, Op(Comma)) {
        var tail := p.rest[1..];
        SpanToken(p.rest);
        SpanTrans(ts, p.rest, tail);
        ArgsLoopSound(args + [p.tree], tail);
        var q := ArgsLoop(args + [p.tree], tail);
        if q.OkArgs? {
          ClosesTrans(ts, tail, q.rest);
          ArgsFromOneMore(args, p.tree, ts, tail, q.trees);
        }
      } else if At(p.rest, RParen) {
        ClosesAfter(ts, p.rest);
      }
    }
  }

  // ---- Whole streams ----

  /** An accepted stream closes every group it opens and never closes more than it opened. */
  lemma {:induction false} AcceptedIsBalanced(ts: seq<Token>)
    requires ParseFull(ts).Ok?
    ensures Balanced(ts)
  {
    ExprSound(ts);
    var rest := ParseExpr(ts).rest;
    if rest != [] {
      SpanToken(rest);
      SpanTrans(ts, rest, []);
    }
    assert ts[..|ts|] == ts;
  }

  /** Without LaTeX commands the tree has readable calls only, and tau only if named in the stream. */
  lemma {:induction false} AcceptedNames(ts: seq<Token>)
    requires ParseFull(ts).Ok?
    ensures LatexFree(ts) ==> CallsReadable(ParseFull(ts).tree)
    ensures TauFreeTokens(ts) ==> TauFree(ParseFull(ts).tree)
  {
    ExprSound(ts);
  }
}
