/** What the parser makes of a printed tree is the tree itself exactly if it is well nested. */
module MathReparse {
  import opened MathSyntax
  import opened MathGrammar
  import opened MathStreams
  import opened MathChains

  // ---- Sizes ----

  function Size(e: Expr): nat
    decreases e, 1
  {
    match e
    case Num(_) => 1
    case Const(_) => 1
    case Neg(a) => 1 + Size(a)
    case Sqrt(a) => 1 + Size(a)
    case Fact(a) => 1 + Size(a)
    case Percent(a) => 1 + Size(a)
    case Call(_, args) => 1 + SizeArgs(args)
    case _ => 1 + Size(e.a) + Size(e.b)
  }

  function SizeArgs(args: seq<Expr>): nat
    decreases args, 0
  {
    if args == [] then 0 else Size(args[0]) + SizeArgs(args[1..])
  }

  lemma {:induction false} SizeApplyPre(pre: seq<bool>, e: Expr)
    ensures Size(ApplyPre(pre, e)) == |pre| + Size(e)
  {
    if pre != [] { SizeApplyPre(pre[1..], e); }
  }

  lemma {:induction false} SizeApplyPost(e: Expr, post: seq<bool>)
    ensures Size(ApplyPost(e, post)) == Size(e) + |post|
  {
    if post != [] { SizeApplyPost(e, post[..|post| - 1]); }
  }

  lemma {:induction false} SizePrefixed(root: bool, ch: Chain)
    ensures Size(Assemble(Prefixed(root, ch))) == 1 + Size(Assemble(ch))
  {
    var l := ch[0];
    SizeApplyPre([root] + l.pre, l.tree);
    SizeApplyPre(l.pre, l.tree);
    SizeApplyPost(ApplyPre([root] + l.pre, l.tree), l.post);
    SizeApplyPost(ApplyPre(l.pre, l.tree), l.post);
    if |ch| > 1 { assert Prefixed(root, ch)[1..] == ch[1..]; }
  }

  lemma {:induction false} SizePostfixed(percent: bool, ch: Chain)
    ensures Size(Assemble(Postfixed(percent, ch))) == 1 + Size(Assemble(ch))
    decreases |ch|
  {
    if |ch| == 1 {
      var l := ch[0];
      SizeApplyPost(ApplyPre(l.pre, l.tree), l.post + [percent]);
      SizeApplyPost(ApplyPre(l.pre, l.tree), l.post);
    } else {
      assert Postfixed(percent, ch)[1..] == Postfixed(percent, ch[1..]);
      SizePostfixed(percent, ch[1..]);
    }
  }

  lemma {:induction false} SizeAppend(c: Chain, d: Chain)
    ensures Size(Assemble(c + d)) == 1 + Size(Assemble(c)) + Size(Assemble(d))
    decreases |c|
  {
    if |c| == 1 {
      assert (c + d)[1..] == d;
    } else {
      assert (c + d)[1..] == c[1..] + d;
      SizeAppend(c[1..], d);
    }
  }

  /** A chain is rebuilt as the same tree in both printing contexts. */
  lemma {:induction false} AssembleIsReparse(e: Expr, tight: bool)
    ensures Assemble(ChainOf(e, tight)) == Reparse(e)
  {
    if !(e.Neg? && tight) {
      assert ChainOf(e, tight) == ChainOf(e, false);
    }
  }

  /** Reading a printed tree back neither loses nor invents nodes. */
  lemma {:induction false} ReparseKeepsSize(e: Expr)
    ensures Size(Reparse(e)) == Size(e)
    decreases e, 1
  {
    match e
    case Num(_) =>
    case Const(_) =>
    case Neg(a) =>
      ReparseKeepsSize(a);
      AssembleIsReparse(a, true);
      SizePrefixed(false, ChainOf(a, true));
    case Sqrt(a) =>
      ReparseKeepsSize(a);
      AssembleIsReparse(a, true);
      SizePrefixed(true, ChainOf(a, true));
    case Fact(a) =>
      ReparseKeepsSize(a);
      AssembleIsReparse(a, true);
      SizePostfixed(false, ChainOf(a, true));
    case Percent(a) =>
      ReparseKeepsSize(a);
      AssembleIsReparse(a, false);
      SizePostfixed(true, ChainOf(a, false));
    case Pow(a, b) =>
      ReparseKeepsSize(a);
      ReparseKeepsSize(b);
      AssembleIsReparse(a, true);
      AssembleIsReparse(b, true);
      SizeAppend(ChainOf(a, true), ChainOf(b, true));
    case Call(_, args) => ReparseArgsKeepSize(args);
    case _ =>
      ReparseKeepsSize(e.a);
      ReparseKeepsSize(e.b);
  }

  lemma {:induction false} ReparseArgsKeepSize(args: seq<Expr>)
    ensures SizeArgs(ReparseArgs(args)) == SizeArgs(args)
    decreases args, 0
  {
    if args != [] {
      ReparseKeepsSize(args[0]);
      ReparseArgsKeepSize(args[1..]);
    }
  }

  lemma {:induction false} NormKeepsSize(e: Expr)
    ensures Size(Norm(e)) == Size(e)
    decreases e, 1
  {
    match e
    case Num(_) =>
    case Const(_) =>
    case Neg(a) => NormKeepsSize(a);
    case Sqrt(a) => NormKeepsSize(a);
    case Fact(a) => NormKeepsSize(a);
    case Percent(a) => NormKeepsSize(a);
    case Call(_, args) => NormArgsKeepSize(args);
    case _ =>
      NormKeepsSize(e.a);
      NormKeepsSize(e.b);
  }

  lemma {:induction false} NormArgsKeepSize(args: seq<Expr>)
    ensures SizeArgs(NormArgs(args)) == SizeArgs(args)
    decreases args, 0
  {
    if args != [] {
      NormKeepsSize(args[0]);
      NormArgsKeepSize(args[1..]);
    }
  }

  /** A well-nested tree prints as several links only if it is a power, and its
      single link ends in a postfix operator only if the tree does. */
  lemma {:induction false} Surface(e: Expr, tight: bool)
    requires WellNested(e)
    ensures |ChainOf(e, tight)| == 1 <==> !e.Pow?
    ensures !e.Pow? ==> (ChainOf(e, tight)[0].post == [] <==> !IsPostfix(e))
    decreases e
  {
    match e
    case Neg(a) => Surface(a, true);
    case Sqrt(a) => Surface(a, true);
    case Fact(a) => Surface(a, true);
    case Percent(a) => Surface(a, false);
    case _ =>
  }

  lemma {:induction false} PrefixSticks(root: bool, ch: Chain)
    ensures |ch| == 1 && ch[0].post == [] ==>
      Assemble(Prefixed(root, ch)) == if root then Sqrt(Assemble(ch)) else Neg(Assemble(ch))
    ensures |ch| == 1 && ch[0].post != [] ==> IsPostfix(Assemble(Prefixed(root, ch)))
    ensures |ch| > 1 ==> Assemble(Prefixed(root, ch)).Pow?
  {
    assert ([root] + ch[0].pre)[1..] == ch[0].pre;
  }

  lemma {:induction false} PostfixSticks(percent: bool, ch: Chain)
    ensures |ch| == 1 ==>
      Assemble(Postfixed(percent, ch)) == if percent then Percent(Assemble(ch)) else Fact(Assemble(ch))
    ensures |ch| > 1 ==> Assemble(Postfixed(percent, ch)).Pow?
  {
    var l := ch[0];
    assert (l.post + [percent])[..|l.post|] == l.post;
  }

  lemma {:induction false} PowerSticks(c: Chain, d: Chain)
    ensures |c| == 1 ==> Assemble(c + d) == Pow(Assemble(c), Assemble(d))
    ensures |c| > 1 ==> Assemble(c + d).Pow? && Size(Assemble(c + d).a) < Size(Assemble(c))
  {
    if |c| == 1 { assert (c + d)[1..] == d; }
  }

  lemma {:induction false} ReparseIffWellNested(e: Expr)
    ensures Reparse(e) == Norm(e) <==> WellNested(e)
    decreases e, 1
  {
    match e
    case Num(_) =>
    case Const(_) =>
    case Neg(a) => PrefixIff(e, a, false);
    case Sqrt(a) => PrefixIff(e, a, true);
    case Fact(a) => PostfixIff(e, a, false);
    case Percent(a) => PostfixIff(e, a, true);
    case Pow(a, b) =>
      var c, d := ChainOf(a, true), ChainOf(b, true);
      ReparseIffWellNested(a);
      ReparseIffWellNested(b);
      AssembleIsReparse(a, true);
      AssembleIsReparse(b, true);
      PowerSticks(c, d);
      if WellNested(a) { Surface(a, true); }
      ReparseKeepsSize(a);
      NormKeepsSize(a);
    case Call(_, args) => ReparseArgsIffWellNested(args);
    case _ =>
      ReparseIffWellNested(e.a);
      ReparseIffWellNested(e.b);
  }

  lemma {:induction false} PrefixIff(e: Expr, a: Expr, root: bool)
    requires e == if root then Sqrt(a) else Neg(a)
    ensures Reparse(e) == Norm(e) <==> WellNested(e)
    decreases e, 0
  {
    ReparseIffWellNested(a);
    AssembleIsReparse(a, true);
    PrefixSticks(root, ChainOf(a, true));
    if WellNested(a) { Surface(a, true); }
  }

  lemma {:induction false} PostfixIff(e: Expr, a: Expr, percent: bool)
    requires e == if percent then Percent(a) else Fact(a)
    ensures Reparse(e) == Norm(e) <==> WellNested(e)
    decreases e, 0
  {
    ReparseIffWellNested(a);
    AssembleIsReparse(a, !percent);
    PostfixSticks(percent, ChainOf(a, !percent));
    if WellNested(a) { Surface(a, !percent); }
  }

  lemma {:induction false} ReparseArgsIffWellNested(args: seq<Expr>)
    ensures ReparseArgs(args) == NormArgs(args) <==> forall i | 0 <= i < |args| :: WellNested(args[i])
    decreases args, 0
  {
    if args != [] {
      ReparseIffWellNested(args[0]);
      ReparseArgsIffWellNested(args[1..]);
      var x, y := ReparseArgs(args), NormArgs(args);
      assert x == y <==> Reparse(args[0]) == Norm(args[0]) && ReparseArgs(args[1..]) == NormArgs(args[1..]) by {
        assert x[0] == Reparse(args[0]) && x[1..] == ReparseArgs(args[1..]);
        assert y[0] == Norm(args[0]) && y[1..] == NormArgs(args[1..]);
      }
      assert forall i | 0 <= i < |args| - 1 :: args[1..][i] == args[i + 1];
    }
  }
}
