/**
 The expression grammar as functions from a token stream to a tree and the
 remaining tokens. Every function is one parser level; the recursion is justified
 by the number of tokens left and then by the level.
 */
module MathGrammar {
  import opened MathSyntax

  datatype Parsed = Fail | Ok(tree: Expr, rest: seq<Token>)
  datatype ParsedArgs = FailArgs | OkArgs(trees: seq<Expr>, rest: seq<Token>)

  predicate At(ts: seq<Token>, t: Token) {
    |ts| > 0 && ts[0] == t
  }

  predicate StartsAtom(ts: seq<Token>) {
    |ts| > 0 && (ts[0].Number? || ts[0].Name? || ts[0].Latex? || ts[0].LParen? || ts[0].LBrace?)
  }

  function AsOne(p: ParsedArgs): (r: Parsed)
    ensures r.Ok? ==> p.OkArgs? && |p.trees| > 0 && r == Ok(p.trees[0], p.rest)
    ensures r.Fail? ==> p.FailArgs? || p.trees == []
  {
    if p.OkArgs? && |p.trees| > 0 then Ok(p.trees[0], p.rest) else Fail
  }

  /** A whole stream: one expression, at most one trailing "=", nothing after. */
  function ParseFull(ts: seq<Token>): Parsed {
    match ParseExpr(ts)
    case Fail => Fail
    case Ok(e, rest) => if rest == [] || rest == [Op(Equals)] then Ok(e, []) else Fail
  }

  function ParseExpr(ts: seq<Token>): (r: Parsed)
    ensures r.Ok? ==> |r.rest| < |ts|
    decreases |ts|, 9
  {
    match ParseTerm(ts)
    case Fail => Fail
    case Ok(lhs, rest) => ExprLoop(lhs, rest)
  }

  function ExprLoop(lhs: Expr, ts: seq<Token>): (r: Parsed)
    ensures r.Ok? ==> |r.rest| <= |ts|
    decreases |ts|, 8
  {
    if At(ts, Op(Plus)) then
      match ParseTerm(ts[1..])
      case Fail => Fail
      case Ok(rhs, rest) => ExprLoop(Add(lhs, rhs), rest)
    else if At(ts, Op(Minus)) || At(ts, Op(MinusSign)) then
      match ParseTerm(ts[1..])
      case Fail => Fail
      case Ok(rhs, rest) => ExprLoop(Sub(lhs, rhs), rest)
    else Ok(lhs, ts)
  }

  function ParseTerm(ts: seq<Token>): (r: Parsed)
    ensures r.Ok? ==> |r.rest| < |ts|
    decreases |ts|, 7
  {
    match ParseFactor(ts)
    case Fail => Fail
    case Ok(lhs, rest) => TermLoop(lhs, rest)
  }

  /** How a term goes on: multiply, divide, multiply implicitly (no operator token), or stop. */
  datatype TermStep = Multiply | Quotient | Implicit | Stop

  function NextTermStep(ts: seq<Token>): TermStep {
    if At(ts, Op(Star)) || At(ts, Op(Times)) || At(ts, Op(MiddleDot)) then Multiply
    else if At(ts, Op(Slash)) || At(ts, Op(Divide)) then Quotient
    else if At(ts, Latex("times")) || At(ts, Latex("cdot")) then Multiply
    else if At(ts, Latex("div")) then Quotient
    else if StartsAtom(ts) then Implicit
    else Stop
  }

  function TermLoop(lhs: Expr, ts: seq<Token>): (r: Parsed)
    ensures r.Ok? ==> |r.rest| <= |ts|
    decreases |ts|, 6
  {
    match NextTermStep(ts)
    case Stop => Ok(lhs, ts)
    case Multiply =>
      (match ParseFactor(ts[1..])
       case Fail => Fail
       case Ok(rhs, rest) => TermLoop(Mul(lhs, rhs), rest))
    case Quotient =>
      (match ParseFactor(ts[1..])
       case Fail => Fail
       case Ok(rhs, rest) => TermLoop(Div(lhs, rhs), rest))
    case Implicit =>
      (match ParseFactor(ts)
       case Fail => Fail
       case Ok(rhs, rest) => TermLoop(Mul(lhs, rhs), rest))
  }

  function ParseFactor(ts: seq<Token>): (r: Parsed)
    ensures r.Ok? ==> |r.rest| < |ts|
    decreases |ts|, 5
  {
    match ParsePostfix(ts)
    case Fail => Fail
    case Ok(base, rest) =>
      if At(rest, Op(Caret)) then
        match ParseFactor(rest[1..])
        case Fail => Fail
        case Ok(exponent, rest') => Ok(Pow(base, exponent), rest')
      else Ok(base, rest)
  }

  function ParsePostfix(ts: seq<Token>): (r: Parsed)
    ensures r.Ok? ==> |r.rest| < |ts|
    decreases |ts|, 4
  {
    match ParseUnary(ts)
    case Fail => Fail
    case Ok(e, rest) => PostfixLoop(e, rest)
  }

  function PostfixLoop(e: Expr, ts: seq<Token>): (r: Parsed)
    ensures r.Ok? && |r.rest| <= |ts|
    decreases |ts|, 0
  {
    if At(ts, Op(Bang)) then PostfixLoop(Fact(e), ts[1..])
    else if At(ts, Op(PercentSign)) then PostfixLoop(Percent(e), ts[1..])
    else Ok(e, ts)
  }

  function ParseUnary(ts: seq<Token>): (r: Parsed)
    ensures r.Ok? ==> |r.rest| < |ts|
    decreases |ts|, 3
  {
    if At(ts, Op(Minus)) || At(ts, Op(MinusSign)) then
      match ParseUnary(ts[1..])
      case Fail => Fail
      case Ok(e, rest) => Ok(Neg(e), rest)
    else if At(ts, Op(Plus)) then ParseUnary(ts[1..])
    else ParseAtom(ts)
  }

  function ParseAtom(ts: seq<Token>): (r: Parsed)
    ensures r.Ok? ==> |r.rest| < |ts|
    decreases |ts|, 2
  {
    if ts == [] then Fail else
    match ts[0]
    case Number(v) => Ok(Num(v), ts[1..])
    case LParen => ParseClosed(ts[1..], RParen)
    case LBrace => ParseClosed(ts[1..], RBrace)
    case Name(raw) => ParseName(raw, ts[1..])
    case Latex(cmd) => ParseLatex(cmd, ts[1..])
    case _ => Fail
  }

  /** An expression followed by the given closing token. */
  function ParseClosed(ts: seq<Token>, close: Token): (r: Parsed)
    ensures r.Ok? ==> |r.rest| < |ts|
    decreases |ts|, 10
  {
    match ParseExpr(ts)
    case Fail => Fail
    case Ok(e, rest) => if At(rest, close) then Ok(e, rest[1..]) else Fail
  }

  function ParseBraced(ts: seq<Token>): (r: Parsed)
    ensures r.Ok? ==> |r.rest| < |ts|
    decreases |ts|, 11
  {
    if At(ts, LBrace) then ParseClosed(ts[1..], RBrace) else Fail
  }

  function ParseFraction(ts: seq<Token>): (r: Parsed)
    ensures r.Ok? ==> |r.rest| < |ts|
    decreases |ts|, 12
  {
    match ParseBraced(ts)
    case Fail => Fail
    case Ok(n, rest) =>
      match ParseBraced(rest)
      case Fail => Fail
      case Ok(d, rest') => Ok(Frac(n, d), rest')
  }

  function ParseName(raw: string, ts: seq<Token>): (r: Parsed)
    ensures r.Ok? ==> |r.rest| <= |ts|
    decreases |ts|, 14
  {
    match Classify(Lower(raw))
    case ConstantName(c) => Ok(Const(c), ts)
    case FractionName => ParseFraction(ts)
    case RootName => ParseRoot(ts)
    case ListName => ParseList(Lower(raw), ts)
    case FunctionName => ParseFunctionCall(Lower(raw), ts)
  }

  function ParseRoot(ts: seq<Token>): (r: Parsed)
    ensures r.Ok? ==> |r.rest| <= |ts|
    decreases |ts|, 13
  {
    if At(ts, LParen) then
      match AsOne(ParseCommaArgs(ts))
      case Fail => Fail
      case Ok(e, rest) => Ok(Sqrt(e), rest)
    else if At(ts, LBrace) then
      match ParseBraced(ts)
      case Fail => Fail
      case Ok(e, rest) => Ok(Sqrt(e), rest)
    else
      match ParseUnary(ts)
      case Fail => Fail
      case Ok(e, rest) => Ok(Sqrt(e), rest)
  }

  function ParseList(name: string, ts: seq<Token>): (r: Parsed)
    ensures r.Ok? ==> |r.rest| <= |ts|
    decreases |ts|, 12
  {
    match ParseCommaArgs(ts)
    case FailArgs => Fail
    case OkArgs(args, rest) => Ok(Call(name, args), rest)
  }

  function ParseLatex(cmd: string, ts: seq<Token>): (r: Parsed)
    ensures r.Ok? ==> |r.rest| <= |ts|
    decreases |ts|, 14
  {
    if cmd == "frac" || cmd == "dfrac" then ParseFraction(ts)
    else if cmd == "sqrt" then
      match ParseBraced(ts)
      case Fail => Fail
      case Ok(e, rest) => Ok(Sqrt(e), rest)
    else if cmd == "pi" then Ok(Const(Pi), ts)
    else if cmd == "tau" then Ok(Const(Tau), ts)
    else if cmd == "infty" then Ok(Const(Infinity), ts)
    else ParseFunctionCall(cmd, ts)
  }

  function ParseFunctionCall(name: string, ts: seq<Token>): (r: Parsed)
    ensures r.Ok? ==> |r.rest| <= |ts|
    decreases |ts|, 13
  {
    if At(ts, LParen) then ParseList(name, ts)
    else if At(ts, LBrace) then
      match ParseBraced(ts)
      case Fail => Fail
      case Ok(e, rest) => Ok(Call(name, [e]), rest)
    else Fail
  }

  function ParseCommaArgs(ts: seq<Token>): (r: ParsedArgs)
    ensures r.OkArgs? ==> |r.rest| < |ts|
    decreases |ts|, 11
  {
    if !At(ts, LParen) then FailArgs
    else if At(ts[1..], RParen) then OkArgs([], ts[2..])
    else ArgsLoop([], ts[1..])
  }

  function ArgsLoop(args: seq<Expr>, ts: seq<Token>): (r: ParsedArgs)
    ensures r.OkArgs? ==> |r.rest| < |ts| && |r.trees| > |args|
    decreases |ts|, 10
  {
    match ParseExpr(ts)
    case Fail => FailArgs
    case Ok(e, rest) =>
      if At(rest, Op(Comma)) then ArgsLoop(args + [e], rest[1..])
      else if At(rest, RParen) then OkArgs(args + [e], rest[1..])
      else FailArgs
  }
}
