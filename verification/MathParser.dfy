/** The cursor parser: a token array, a position, and one method per grammar level. */
module MathParser {
  import opened MathSyntax
  import opened MathGrammar

  datatype Outcome = Error | Tree(e: Expr)
  datatype ArgsOutcome = ArgsError | Trees(es: seq<Expr>)

  /** The method read what the grammar reads: same verdict, same tree, and the cursor on the remainder. */
  predicate Reads(p: Parsed, r: Outcome, remaining: seq<Token>) {
    match p
    case Fail => r.Error?
    case Ok(e, rest) => r == Tree(e) && remaining == rest
  }

  predicate ReadsArgs(p: ParsedArgs, r: ArgsOutcome, remaining: seq<Token>) {
    match p
    case FailArgs => r.ArgsError?
    case OkArgs(es, rest) => r == Trees(es) && remaining == rest
  }

  class Parser {
    const tokens: seq<Token>
    var pos: nat

    ghost predicate Valid()
      reads this
    {
      pos <= |tokens|
    }

    ghost function Remaining(): seq<Token>
      requires Valid()
      reads this
    {
      tokens[pos..]
    }

    constructor (tokens: seq<Token>)
      ensures Valid() && Remaining() == tokens && this.tokens == tokens
    {
      this.tokens := tokens;
      pos := 0;
    }

    predicate Current(t: Token)
      requires Valid()
      reads this
      ensures Current(t) == At(Remaining(), t)
    {
      pos < |tokens| && tokens[pos] == t
    }

    method Match(t: Token) returns (found: bool)
      requires Valid()
      modifies this
      ensures Valid()
      ensures found == At(old(Remaining()), t)
      ensures Remaining() == if found then old(Remaining())[1..] else old(Remaining())
    {
      found := Current(t);
      if found {
        pos := pos + 1;
      }
    }

    method ParseFull() returns (r: Outcome)
      requires Valid()
      modifies this
      ensures Valid()
      ensures match MathGrammar.ParseFull(old(Remaining()))
              case Fail => r.Error?
              case Ok(e, _) => r == Tree(e)
      decreases |tokens| - pos, 15
    {
      r := ParseExpr();
      if r.Error? { return; }
      var equals := Match(Op(Equals));
      if pos < |tokens| { r := Error; }
    }

    method ParseExpr() returns (r: Outcome)
      requires Valid()
      modifies this
      ensures Valid()
      ensures Reads(MathGrammar.ParseExpr(old(Remaining())), r, Remaining())
      decreases |tokens| - pos, 9
    {
      r := ParseTerm();
      if r.Error? { return; }
      while true
        invariant Valid() && r.Tree?
        invariant pos > old(pos)
        invariant MathGrammar.ParseExpr(old(Remaining())) == ExprLoop(r.e, Remaining())
        decreases |tokens| - pos
      {
        var lhs := r.e;
        var plus := Match(Op(Plus));
        if plus {
          r := ParseTerm();
          if r.Error? { return; }
          r := Tree(Add(lhs, r.e));
          continue;
        }
        var minus := Match(Op(Minus));
        if !minus { minus := Match(Op(MinusSign)); }
        if !minus { return; }
        r := ParseTerm();
        if r.Error? { return; }
        r := Tree(Sub(lhs, r.e));
      }
    }

    method ParseTerm() returns (r: Outcome)
      requires Valid()
      modifies this
      ensures Valid()
      ensures Reads(MathGrammar.ParseTerm(old(Remaining())), r, Remaining())
      decreases |tokens| - pos, 7
    {
      r := ParseFactor();
      if r.Error? { return; }
      while true
        invariant Valid() && r.Tree?
        invariant pos > old(pos)
        invariant MathGrammar.ParseTerm(old(Remaining())) == TermLoop(r.e, Remaining())
        decreases |tokens| - pos
      {
        var lhs := r.e;
        var step := NextTermStep(tokens[pos..]);
        if step.Stop? { return; }
        if !step.Implicit? { pos := pos + 1; }
        r := ParseFactor();
        if r.Error? { return; }
        r := Tree(if step.Quotient? then Div(lhs, r.e) else Mul(lhs, r.e));
      }
    }

    method ParseFactor() returns (r: Outcome)
      requires Valid()
      modifies this
      ensures Valid()
      ensures Reads(MathGrammar.ParseFactor(old(Remaining())), r, Remaining())
      decreases |tokens| - pos, 5
    {
      r := ParsePostfix();
      if r.Error? { return; }
      var caret := Match(Op(Caret));
      if caret {
        var base := r.e;
        r := ParseFactor();
        if r.Tree? { r := Tree(Pow(base, r.e)); }
      }
    }

    method ParsePostfix() returns (r: Outcome)
      requires Valid()
      modifies this
      ensures Valid()
      ensures Reads(MathGrammar.ParsePostfix(old(Remaining())), r, Remaining())
      decreases |tokens| - pos, 4
    {
      r := ParseUnary();
      if r.Error? { return; }
      while true
        invariant Valid() && r.Tree?
        invariant MathGrammar.ParsePostfix(old(Remaining())) == PostfixLoop(r.e, Remaining())
        decreases |tokens| - pos
      {
        var bang := Match(Op(Bang));
        if bang {
          r := Tree(Fact(r.e));
        } else {
          var percent := Match(Op(PercentSign));
          if !percent { return; }
          r := Tree(Percent(r.e));
        }
      }
    }

    method ParseUnary() returns (r: Outcome)
      requires Valid()
      modifies this
      ensures Valid()
      ensures Reads(MathGrammar.ParseUnary(old(Remaining())), r, Remaining())
      decreases |tokens| - pos, 3
    {
      var minus := Match(Op(Minus));
      if !minus { minus := Match(Op(MinusSign)); }
      if minus {
        r := ParseUnary();
        if r.Tree? { r := Tree(Neg(r.e)); }
        return;
      }
      var plus := Match(Op(Plus));
      if plus {
        r := ParseUnary();
      } else {
        r := ParseAtom();
      }
    }

    method ParseAtom() returns (r: Outcome)
      requires Valid()
      modifies this
      ensures Valid()
      ensures Reads(MathGrammar.ParseAtom(old(Remaining())), r, Remaining())
      decreases |tokens| - pos, 2
    {
      if pos == |tokens| { return Error; }
      match tokens[pos] {
        case Number(v) =>
          pos := pos + 1;
          r := Tree(Num(v));
        case LParen =>
          pos := pos + 1;
          r := ParseClosed(RParen);
        case LBrace =>
          pos := pos + 1;
          r := ParseClosed(RBrace);
        case Name(raw) =>
          pos := pos + 1;
          r := ParseName(raw);
        case Latex(cmd) =>
          pos := pos + 1;
          r := ParseLatex(cmd);
        case _ =>
          r := Error;
      }
    }

    method ParseClosed(close: Token) returns (r: Outcome)
      requires Valid()
      modifies this
      ensures Valid()
      ensures Reads(MathGrammar.ParseClosed(old(Remaining()), close), r, Remaining())
      decreases |tokens| - pos, 10
    {
      r := ParseExpr();
      if r.Error? { return; }
      var closed := Match(close);
      if !closed { r := Error; }
    }

    method ParseBracedGroup() returns (r: Outcome)
      requires Valid()
      modifies this
      ensures Valid()
      ensures Reads(ParseBraced(old(Remaining())), r, Remaining())
      decreases |tokens| - pos, 11
    {
      var open := Match(LBrace);
      if !open { return Error; }
      r := ParseClosed(RBrace);
    }

    method ParseFrac() returns (r: Outcome)
      requires Valid()
      modifies this
      ensures Valid()
      ensures Reads(ParseFraction(old(Remaining())), r, Remaining())
      decreases |tokens| - pos, 12
    {
      r := ParseBracedGroup();
      if r.Error? { return; }
      var n := r.e;
      r := ParseBracedGroup();
      if r.Tree? { r := Tree(Frac(n, r.e)); }
    }

    method ParseName(raw: string) returns (r: Outcome)
      requires Valid()
      modifies this
      ensures Valid()
      ensures Reads(MathGrammar.ParseName(raw, old(Remaining())), r, Remaining())
      decreases |tokens| - pos, 14
    {
      ghost var ts := Remaining();
      assert Classify(Lower(raw)).RootName? ==> MathGrammar.ParseName(raw, ts) == ParseRoot(ts);
      assert Classify(Lower(raw)).ListName? ==> MathGrammar.ParseName(raw, ts) == ParseList(Lower(raw), ts);
      match Classify(Lower(raw)) {
        case ConstantName(c) =>
          r := Tree(Const(c));
        case FractionName =>
          r := ParseFrac();
        case RootName =>
          if Current(LParen) {
            var args := ParseCommaArgs();
            r := if args.Trees? && |args.es| > 0 then Tree(Sqrt(args.es[0])) else Error;
          } else {
            if Current(LBrace) {
              r := ParseBracedGroup();
            } else {
              r := ParseUnary();
            }
            if r.Tree? { r := Tree(Sqrt(r.e)); }
          }
        case ListName =>
          var args := ParseCommaArgs();
          r := if args.Trees? then Tree(Call(Lower(raw), args.es)) else Error;
        case FunctionName =>
          r := ParseFunctionCall(Lower(raw));
      }
    }

    method ParseLatex(cmd: string) returns (r: Outcome)
      requires Valid()
      modifies this
      ensures Valid()
      ensures Reads(MathGrammar.ParseLatex(cmd, old(Remaining())), r, Remaining())
      decreases |tokens| - pos, 14
    {
      if cmd == "frac" || cmd == "dfrac" {
        r := ParseFrac();
      } else if cmd == "sqrt" {
        r := ParseBracedGroup();
        if r.Tree? { r := Tree(Sqrt(r.e)); }
      } else if cmd == "pi" {
        r := Tree(Const(Pi));
      } else if cmd == "tau" {
        r := Tree(Const(Tau));
      } else if cmd == "infty" {
        r := Tree(Const(Infinity));
      } else {
        r := ParseFunctionCall(cmd);
      }
    }

    method ParseFunctionCall(name: string) returns (r: Outcome)
      requires Valid()
      modifies this
      ensures Valid()
      ensures Reads(MathGrammar.ParseFunctionCall(name, old(Remaining())), r, Remaining())
      decreases |tokens| - pos, 13
    {
      ghost var ts := Remaining();
      assert At(ts, LParen) ==> MathGrammar.ParseFunctionCall(name, ts) == ParseList(name, ts);
      if Current(LParen) {
        var args := ParseCommaArgs();
        r := if args.Trees? then Tree(Call(name, args.es)) else Error;
      } else if Current(LBrace) {
        r := ParseBracedGroup();
        if r.Tree? { r := Tree(Call(name, [r.e])); }
      } else {
        r := Error;
      }
    }

    method ParseCommaArgs() returns (r: ArgsOutcome)
      requires Valid()
      modifies this
      ensures Valid()
      ensures ReadsArgs(MathGrammar.ParseCommaArgs(old(Remaining())), r, Remaining())
      decreases |tokens| - pos, 11
    {
      var open := Match(LParen);
      if !open { return ArgsError; }
      var empty := Match(RParen);
      if empty { return Trees([]); }
      var args: seq<Expr> := [];
      while true
        invariant Valid()
        invariant pos > old(pos)
        invariant MathGrammar.ParseCommaArgs(old(Remaining())) == ArgsLoop(args, Remaining())
        decreases |tokens| - pos
      {
        var arg := ParseExpr();
        if arg.Error? { return ArgsError; }
        args := args + [arg.e];
        var comma := Match(Op(Comma));
        if comma { continue; }
        var closed := Match(RParen);
        return if closed then Trees(args) else ArgsError;
      }
    }
  }
}
