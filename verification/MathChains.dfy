/**
 Printed trees as chains, and the fragment on which printing and parsing back gives the tree.

 The printer never puts parentheses round a power, a factorial or a percentage. What a factor
 prints as is therefore a chain of links `-√x!% ^ -√y!% ^ ...`, and the parser rebuilds a tree
 from that chain: `Reparse`. Printing yields the tokens of the chain (here); the parser reads
 those tokens as `Reparse` (`MathReading`); and `Reparse` equals the tree exactly when the tree
 is `WellNested` (`MathReparse`).
 */
module MathChains {
  import opened MathSyntax
  import opened MathGrammar
  import opened MathStreams

  // ---- The fragment ----

  predicate IsPostfix(e: Expr) { e.Fact? || e.Percent? }

  /** No operator's operand is one the printer should have put in parentheses and does not. */
  predicate WellNested(e: Expr)
    decreases e
  {
    match e
    case Num(_) => true
    case Const(_) => true
    case Neg(a) => WellNested(a) && !a.Pow? && !IsPostfix(a)
    case Sqrt(a) => WellNested(a) && !a.Pow? && !IsPostfix(a)
    case Pow(a, b) => WellNested(a) && WellNested(b) && !a.Pow?
    case Fact(a) => WellNested(a) && !a.Pow?
    case Percent(a) => WellNested(a) && !a.Pow?
    case Call(_, args) => forall i | 0 <= i < |args| :: WellNested(args[i])
    case _ => WellNested(e.a) && WellNested(e.b)
  }

  /** No tau (it prints as a sign the parser does not know) and only callable function names. */
  predicate Readable(e: Expr) { CallsReadable(e) && TauFree(e) }

  predicate Faithful(e: Expr) { WellNested(e) && Readable(e) }

  /** The tree with every \frac read as a division. */
  function Norm(e: Expr): Expr
    decreases e, 1
  {
    match e
    case Num(_) => e
    case Const(_) => e
    case Neg(a) => Neg(Norm(a))
    case Add(a, b) => Add(Norm(a), Norm(b))
    case Sub(a, b) => Sub(Norm(a), Norm(b))
    case Mul(a, b) => Mul(Norm(a), Norm(b))
    case Div(a, b) => Div(Norm(a), Norm(b))
    case Pow(a, b) => Pow(Norm(a), Norm(b))
    case Call(name, args) => Call(name, NormArgs(args))
    case Frac(a, b) => Div(Norm(a), Norm(b))
    case Sqrt(a) => Sqrt(Norm(a))
    case Fact(a) => Fact(Norm(a))
    case Percent(a) => Percent(Norm(a))
  }

  function NormArgs(args: seq<Expr>): seq<Expr>
    decreases args, 0
  {
    if args == [] then [] else [Norm(args[0])] + NormArgs(args[1..])
  }

  // ---- Chains ----

  /** One link of a printed factor: prefix operators, an atom, postfix operators.
      `toks` are the atom's tokens and `tree` is what the parser makes of them. */
  datatype Link = Link(pre: seq<bool>, toks: seq<Token>, tree: Expr, post: seq<bool>)
  type Chain = ch: seq<Link> | |ch| > 0 witness [Link([], [], Num(0.0), [])]

  function PreToken(root: bool): Token { if root then Name(ROOT_SIGN) else Op(Minus) }
  function PostToken(percent: bool): Token { if percent then Op(PercentSign) else Op(Bang) }

  function Prefixed(root: bool, ch: Chain): Chain {
    ch[0 := ch[0].(pre := [root] + ch[0].pre)]
  }

  function Postfixed(percent: bool, ch: Chain): Chain {
    var n := |ch| - 1;
    ch[n := ch[n].(post := ch[n].post + [percent])]
  }

  function ApplyPre(pre: seq<bool>, e: Expr): Expr {
    if pre == [] then e
    else if pre[0] then Sqrt(ApplyPre(pre[1..], e))
    else Neg(ApplyPre(pre[1..], e))
  }

  function ApplyPost(e: Expr, post: seq<bool>): Expr {
    if post == [] then e
    else
      var n := |post| - 1;
      if post[n] then Percent(ApplyPost(e, post[..n])) else Fact(ApplyPost(e, post[..n]))
  }

  function LinkTree(l: Link): Expr { ApplyPost(ApplyPre(l.pre, l.tree), l.post) }

  function Assemble(ch: Chain): Expr {
    if |ch| == 1 then LinkTree(ch[0]) else Pow(LinkTree(ch[0]), Assemble(ch[1..]))
  }

  function PreTokens(pre: seq<bool>): seq<Token> { seq(|pre|, i requires 0 <= i < |pre| => PreToken(pre[i])) }
  function PostTokens(post: seq<bool>): seq<Token> { seq(|post|, i requires 0 <= i < |post| => PostToken(post[i])) }
  function LinkTokens(l: Link): seq<Token> { PreTokens(l.pre) + l.toks + PostTokens(l.post) }

  function ChainTokens(ch: Chain): seq<Token> {
    if |ch| == 1 then LinkTokens(ch[0]) else LinkTokens(ch[0]) + [Op(Caret)] + ChainTokens(ch[1..])
  }

  predicate Binary(e: Expr) { e.Add? || e.Sub? || e.Mul? || e.Div? || e.Frac? }

  /** The chain a factor prints as; `tight` is the printer's precedence 4, otherwise 3. */
  function ChainOf(e: Expr, tight: bool): Chain
    decreases e, if tight then 3 else 1
  {
    match e
    case Neg(a) =>
      if tight then [Link([], [LParen] + Render(e, 0) + [RParen], Reparse(e), [])]
      else Prefixed(false, ChainOf(a, true))
    case Sqrt(a) => Prefixed(true, ChainOf(a, true))
    case Pow(a, b) => ChainOf(a, true) + ChainOf(b, true)
    case Fact(a) => Postfixed(false, ChainOf(a, true))
    case Percent(a) => Postfixed(true, ChainOf(a, false))
    case Num(_) => [Link([], Render(e, 0), e, [])]
    case Const(_) => [Link([], Render(e, 0), e, [])]
    case Call(_, _) => [Link([], Render(e, 0), Reparse(e), [])]
    case _ => [Link([], [LParen] + Render(e, 0) + [RParen], Reparse(e), [])]
  }

  /** The tree the parser builds from the printed form. */
  function Reparse(e: Expr): Expr
    decreases e, if Binary(e) || e.Call? then 0 else 2
  {
    match e
    case Add(a, b) => Add(Reparse(a), Reparse(b))
    case Sub(a, b) => Sub(Reparse(a), Reparse(b))
    case Mul(a, b) => Mul(Reparse(a), Reparse(b))
    case Div(a, b) => Div(Reparse(a), Reparse(b))
    case Frac(a, b) => Div(Reparse(a), Reparse(b))
    case Call(name, args) => Call(name, ReparseArgs(args))
    case _ => Assemble(ChainOf(e, false))
  }

  function ReparseArgs(args: seq<Expr>): seq<Expr>
    decreases args, 4
  {
    if args == [] then [] else [Reparse(args[0])] + ReparseArgs(args[1..])
  }

  // ---- A factor prints as the tokens of its chain ----

  lemma {:induction false} ChainTokensPrefixed(root: bool, ch: Chain)
    ensures ChainTokens(Prefixed(root, ch)) == [PreToken(root)] + ChainTokens(ch)
  {
    var l := ch[0];
    var l' := l.(pre := [root] + l.pre);
    assert PreTokens(l'.pre) == [PreToken(root)] + PreTokens(l.pre);
    assert LinkTokens(l') == [PreToken(root)] + LinkTokens(l);
    if |ch| > 1 {
      assert Prefixed(root, ch)[1..] == ch[1..];
    }
  }

  lemma {:induction false} ChainTokensPostfixed(percent: bool, ch: Chain)
    ensures ChainTokens(Postfixed(percent, ch)) == ChainTokens(ch) + [PostToken(percent)]
    decreases |ch|
  {
    var ch' := Postfixed(percent, ch);
    if |ch| == 1 {
      var l := ch[0];
      assert PostTokens(l.post + [percent]) == PostTokens(l.post) + [PostToken(percent)];
      assert LinkTokens(ch'[0]) == LinkTokens(l) + [PostToken(percent)];
    } else {
      assert ch'[1..] == Postfixed(percent, ch[1..]);
      ChainTokensPostfixed(percent, ch[1..]);
      assert LinkTokens(ch[0]) + [Op(Caret)] + (ChainTokens(ch[1..]) + [PostToken(percent)])
          == LinkTokens(ch[0]) + [Op(Caret)] + ChainTokens(ch[1..]) + [PostToken(percent)];
    }
  }

  lemma {:induction false} ChainTokensAppend(c: Chain, d: Chain)
    ensures ChainTokens(c + d) == ChainTokens(c) + [Op(Caret)] + ChainTokens(d)
    decreases |c|
  {
    assert (c + d)[0] == c[0];
    if |c| == 1 {
      assert (c + d)[1..] == d;
    } else {
      assert (c + d)[1..] == c[1..] + d;
      ChainTokensAppend(c[1..], d);
      var h := LinkTokens(c[0]) + [Op(Caret)];
      assert h + (ChainTokens(c[1..]) + [Op(Caret)] + ChainTokens(d))
          == h + ChainTokens(c[1..]) + [Op(Caret)] + ChainTokens(d);
    }
  }

  lemma {:induction false} AtomTokens(toks: seq<Token>, tree: Expr)
    ensures ChainTokens([Link([], toks, tree, [])]) == toks
  {
    assert PreTokens([]) == [] && PostTokens([]) == [];
  }

  lemma {:induction false} PrintsAsChain(e: Expr, tight: bool)
    ensures Render(e, if tight then 4 else 3) == ChainTokens(ChainOf(e, tight))
    decreases e, tight
  {
    match e
    case Neg(a) =>
      if tight {
        AtomTokens([LParen] + Render(e, 0) + [RParen], Reparse(e));
      } else {
        PrintsAsChain(a, true);
        ChainTokensPrefixed(false, ChainOf(a, true));
      }
    case Sqrt(a) =>
      PrintsAsChain(a, true);
      ChainTokensPrefixed(true, ChainOf(a, true));
    case Pow(a, b) =>
      PrintsAsChain(a, true);
      PrintsAsChain(b, true);
      ChainTokensAppend(ChainOf(a, true), ChainOf(b, true));
    case Fact(a) =>
      PrintsAsChain(a, true);
      ChainTokensPostfixed(false, ChainOf(a, true));
    case Percent(a) =>
      PrintsAsChain(a, false);
      ChainTokensPostfixed(true, ChainOf(a, false));
    case Num(_) => AtomTokens(Render(e, 0), e);
    case Const(_) => AtomTokens(Render(e, 0), e);
    case Call(_, _) => AtomTokens(Render(e, 0), Reparse(e));
    case _ => AtomTokens([LParen] + Render(e, 0) + [RParen], Reparse(e));
  }
}
