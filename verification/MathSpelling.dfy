/**
 Other ways to write what the printer writes one way: operators, commands, constants and names have several
 spellings, and the parser reads them alike.
 */
module MathSpelling {
  import opened MathSyntax
  import opened MathGrammar
  import opened MathStreams

  // ---- Spellings ----

  function ConstantName(c: Constant): string {
    match c case Pi => PI_SIGN case Tau => "tau" case E => "e" case Infinity => INFINITY_SIGN
  }

  function CanonName(raw: string): string {
    match Classify(Lower(raw))
    case ConstantName(c) => ConstantName(c)
    case FractionName => "frac"
    case RootName => ROOT_SIGN
    case ListName => Lower(raw)
    case FunctionName => Lower(raw)
  }

  /** One spelling for all: the printer's, where it has one. */
  function CanonToken(t: Token): Token {
    match t
    case Op(o) =>
      (match o
       case Star => Op(Times)
       case MiddleDot => Op(Times)
       case Divide => Op(Slash)
       case MinusSign => Op(Minus)
       case _ => t)
    case Latex(command) =>
      if command == "times" || command == "cdot" then Op(Times)
      else if command == "div" then Op(Slash)
      else if command == "pi" then Name(PI_SIGN)
      else if command == "tau" then Name("tau")
      else if command == "infty" then Name(INFINITY_SIGN)
      else if command == "frac" || command == "dfrac" then Name("frac")
      else t
    case Name(raw) => Name(CanonName(raw))
    case _ => t
  }

  function Canon(ts: seq<Token>): seq<Token> {
    seq(|ts|, i requires 0 <= i < |ts| => CanonToken(ts[i]))
  }

  /** A command that writes an operator. */
  predicate OperatorCommand(t: Token) {
    t.Latex? && (t.command == "times" || t.command == "cdot" || t.command == "div")
  }

  /** After this token an operand is due. */
  predicate Opens(t: Token) {
    match t
    case Op(o) => !o.Bang? && !o.PercentSign?
    case LParen => true
    case LBrace => true
    case Name(raw) => Classify(Lower(raw)).RootName?
    case Latex(_) => OperatorCommand(t)
    case _ => false
  }

  /** An operand is due after `ts`; `due` says so before it. */
  predicate DueAfter(ts: seq<Token>, due: bool) {
    if ts == [] then due else Opens(ts[|ts| - 1])
  }

  /** No operator command stands where an operand is due, which is where it would be read as a function's name. */
  ghost predicate Clean(ts: seq<Token>, due: bool) {
    forall i | 0 <= i < |ts| :: OperatorCommand(ts[i]) ==> !DueAfter(ts[..i], due)
  }

  lemma {:induction false} CleanJoins(a: seq<Token>, b: seq<Token>, due: bool)
    ensures Clean(a + b, due) <==> Clean(a, due) && Clean(b, DueAfter(a, due))
    ensures DueAfter(a + b, due) == DueAfter(b, DueAfter(a, due))
  {
    hide OperatorCommand, Opens;
    forall i | 0 <= i < |a| ensures (a + b)[i] == a[i] && DueAfter((a + b)[..i], due) == DueAfter(a[..i], due) {
      assert (a + b)[..i] == a[..i];
    }
    forall i | 0 <= i < |b|
      ensures (a + b)[|a| + i] == b[i]
      ensures DueAfter((a + b)[..|a| + i], due) == DueAfter(b[..i], DueAfter(a, due))
    {
      assert (a + b)[..|a| + i] == a + b[..i];
    }
    assert b == [] ==> a + b == a;
  }

  lemma {:induction false} CleanToken(t: Token, due: bool)
    ensures Clean([t], due) <==> !(OperatorCommand(t) && due)
    ensures DueAfter([t], due) == Opens(t)
  {
    assert [t][..0] == [];
  }

  // ---- Readings of two spellings ----

  /** `c` is what is read of the canonical spelling of `ts`, if `p` is what is read of `ts` itself. */
  ghost predicate Spells(ts: seq<Token>, due: bool, p: Parsed, c: Parsed) {
    match p
    case Fail => c.Fail?
    case Ok(tree, rest) =>
      && |rest| <= |ts|
      && var n := |ts| - |rest|;
         && rest == ts[n..] && !DueAfter(ts[..n], due)
         && c == if Clean(ts[..n], due) then Ok(tree, Canon(rest)) else Fail
  }

  /** Reading on after the first `n` tokens. */
  lemma {:induction false} Then(ts: seq<Token>, due: bool, n: nat, p: Parsed, c: Parsed)
    requires n <= |ts| && Spells(ts[n..], DueAfter(ts[..n], due), p, c)
    ensures Spells(ts, due, p, if Clean(ts[..n], due) then c else Fail)
  {
    hide Clean, DueAfter, Canon;
    if p.Ok? {
      var m := |ts| - |p.rest|;
      assert ts[n..][..m - n] == ts[n..m];
      assert ts[..m] == ts[..n] + ts[n..m];
      CleanJoins(ts[..n], ts[n..m], due);
      assert ts[n..][m - n..] == ts[m..];
    }
  }

  lemma {:induction false} ThenToken(ts: seq<Token>, due: bool, p: Parsed, c: Parsed)
    requires ts != [] && Spells(ts[1..], Opens(ts[0]), p, c)
    ensures Spells(ts, due, p, if OperatorCommand(ts[0]) && due then Fail else c)
  {
    hide Spells;
    assert ts[..1] == [ts[0]];
    CleanToken(ts[0], due);
    Then(ts, due, 1, p, c);
  }

  /** Reading on after what `p` has read. */
  lemma {:induction false} ThenRest(ts: seq<Token>, due: bool, p: Parsed, c: Parsed, q: Parsed, d: Parsed)
    requires Spells(ts, due, p, c) && p.Ok? && Spells(p.rest, false, q, d)
    ensures Spells(ts, due, q, if c.Ok? then d else Fail)
  {
    Then(ts, due, |ts| - |p.rest|, q, d);
  }

  lemma {:induction false} HeadSpelled(ts: seq<Token>)
    requires ts != []
    ensures Canon(ts)[0] == CanonToken(ts[0]) && Canon(ts)[1..] == Canon(ts[1..])
  {
  }

  /** What a reading says of its other spelling. */
  lemma {:induction false} Spelled(ts: seq<Token>, due: bool, p: Parsed, c: Parsed)
    requires Spells(ts, due, p, c)
    ensures p.Fail? ==> c.Fail?
    ensures c.Ok? ==> c == Ok(p.tree, Canon(p.rest))
  {
  }

  lemma {:induction false} NothingRead(ts: seq<Token>, tree: Expr)
    ensures Spells(ts, false, Ok(tree, ts), Ok(tree, Canon(ts)))
  {
    assert ts[..0] == [] && ts[0..] == ts;
  }

  lemma FailSpells(ts: seq<Token>, due: bool)
    ensures Spells(ts, due, Fail, Fail)
  {
  }

  /** The tokens that decide how the parser goes on are the same in both spellings. */
  lemma {:induction false} HeadsAlike(ts: seq<Token>)
    ensures At(Canon(ts), Op(Plus)) == At(ts, Op(Plus))
    ensures (At(Canon(ts), Op(Minus)) || At(Canon(ts), Op(MinusSign))) == (At(ts, Op(Minus)) || At(ts, Op(MinusSign)))
    ensures At(Canon(ts), Op(Caret)) == At(ts, Op(Caret))
    ensures At(Canon(ts), Op(Bang)) == At(ts, Op(Bang))
    ensures At(Canon(ts), Op(PercentSign)) == At(ts, Op(PercentSign))
    ensures At(Canon(ts), Op(Comma)) == At(ts, Op(Comma))
    ensures At(Canon(ts), LParen) == At(ts, LParen) && At(Canon(ts), RParen) == At(ts, RParen)
    ensures At(Canon(ts), LBrace) == At(ts, LBrace) && At(Canon(ts), RBrace) == At(ts, RBrace)
    ensures ts != [] ==> Canon(ts) != [] && Canon(ts)[1..] == Canon(ts[1..])
  {
    if ts != [] {
      HeadSpelled(ts);
    }
  }

  lemma {:induction false} StepsAlike(ts: seq<Token>)
    ensures NextTermStep(Canon(ts)) == NextTermStep(ts)
    ensures NextTermStep(ts).Implicit? ==> ts != [] && !OperatorCommand(ts[0])
    ensures NextTermStep(ts).Multiply? || NextTermStep(ts).Quotient? ==> ts != [] && Opens(ts[0])
  {
    if ts != [] {
      HeadSpelled(ts);
    }
  }

  // ---- Every level of the parser ----

  lemma {:induction false} ExprSpells(ts: seq<Token>)
    ensures Spells(ts, true, ParseExpr(ts), ParseExpr(Canon(ts)))
    decreases |ts|, 9
  {
    hide Spells, Canon;
    TermSpells(ts);
    var p, c := ParseTerm(ts), ParseTerm(Canon(ts));
    Spelled(ts, true, p, c);
    if p.Ok? {
      ExprLoopSpells(p.tree, p.rest);
      ThenRest(ts, true, p, c, ExprLoop(p.tree, p.rest), ExprLoop(p.tree, Canon(p.rest)));
    }
  }

  lemma {:induction false} ExprLoopSpells(lhs: Expr, ts: seq<Token>)
    ensures Spells(ts, false, ExprLoop(lhs, ts), ExprLoop(lhs, Canon(ts)))
    decreases |ts|, 8
  {
    HeadsAlike(ts);
    hide Spells, Canon, ParseTerm;
    if At(ts, Op(Plus)) || At(ts, Op(Minus)) || At(ts, Op(MinusSign)) {
      TermSpells(ts[1..]);
      var p, c := ParseTerm(ts[1..]), ParseTerm(Canon(ts[1..]));
      Spelled(ts[1..], true, p, c);
      var q, d := Parsed.Fail, Parsed.Fail;
      if p.Ok? {
        var whole := if At(ts, Op(Plus)) then Add(lhs, p.tree) else Sub(lhs, p.tree);
        ExprLoopSpells(whole, p.rest);
        q, d := ExprLoop(whole, p.rest), if c.Ok? then ExprLoop(whole, Canon(p.rest)) else Fail;
        ThenRest(ts[1..], true, p, c, q, ExprLoop(whole, Canon(p.rest)));
      } else {
        FailSpells(ts[1..], true);
      }
      ThenToken(ts, false, q, d);
    } else {
      NothingRead(ts, lhs);
    }
  }

  lemma {:induction false} TermSpells(ts: seq<Token>)
    ensures Spells(ts, true, ParseTerm(ts), ParseTerm(Canon(ts)))
    decreases |ts|, 7
  {
    hide Spells, Canon;
    FactorSpells(ts);
    var p, c := ParseFactor(ts), ParseFactor(Canon(ts));
    Spelled(ts, true, p, c);
    if p.Ok? {
      TermLoopSpells(p.tree, p.rest);
      ThenRest(ts, true, p, c, TermLoop(p.tree, p.rest), TermLoop(p.tree, Canon(p.rest)));
    }
  }

  lemma {:induction false} TermLoopSpells(lhs: Expr, ts: seq<Token>)
    ensures Spells(ts, false, TermLoop(lhs, ts), TermLoop(lhs, Canon(ts)))
    decreases |ts|, 6
  {
    HeadsAlike(ts);
    StepsAlike(ts);
    hide Spells, Canon, ParseFactor, NextTermStep;
    var step := NextTermStep(ts);
    if step.Stop? {
      NothingRead(ts, lhs);
    } else if step.Implicit? {
      FactorSpells(ts);
      var p, c := ParseFactor(ts), ParseFactor(Canon(ts));
      NotDue(ts, p, c);
      Spelled(ts, false, p, c);
      if p.Ok? {
        var whole := Mul(lhs, p.tree);
        TermLoopSpells(whole, p.rest);
        ThenRest(ts, false, p, c, TermLoop(whole, p.rest), TermLoop(whole, Canon(p.rest)));
      }
    } else {
      FactorSpells(ts[1..]);
      var p, c := ParseFactor(ts[1..]), ParseFactor(Canon(ts[1..]));
      Spelled(ts[1..], true, p, c);
      var q, d := Parsed.Fail, Parsed.Fail;
      if p.Ok? {
        var whole := if step.Multiply? then Mul(lhs, p.tree) else Div(lhs, p.tree);
        TermLoopSpells(whole, p.rest);
        q, d := TermLoop(whole, p.rest), if c.Ok? then TermLoop(whole, Canon(p.rest)) else Fail;
        ThenRest(ts[1..], true, p, c, q, TermLoop(whole, Canon(p.rest)));
      } else {
        FailSpells(ts[1..], true);
      }
      ThenToken(ts, false, q, d);
    }
  }

  /** Where no operator command comes first, it makes no difference whether an operand is due. */
  lemma {:induction false} NotDue(ts: seq<Token>, p: Parsed, c: Parsed)
    requires Spells(ts, true, p, c) && ts != [] && !OperatorCommand(ts[0])
    requires p.Ok? ==> |p.rest| < |ts|
    ensures Spells(ts, false, p, c)
  {
    if p.Ok? {
      var seg := ts[..|ts| - |p.rest|];
      assert Clean(seg, true) <==> Clean(seg, false) by {
        forall i | 0 < i < |seg| ensures DueAfter(seg[..i], true) == DueAfter(seg[..i], false) { }
      }
    }
  }

  lemma {:induction false} FactorSpells(ts: seq<Token>)
    ensures Spells(ts, true, ParseFactor(ts), ParseFactor(Canon(ts)))
    decreases |ts|, 5
  {
    hide Spells, Canon, ParsePostfix;
    PostfixSpells(ts);
    var p, c := ParsePostfix(ts), ParsePostfix(Canon(ts));
    Spelled(ts, true, p, c);
    if p.Ok? {
      HeadsAlike(p.rest);
      if At(p.rest, Op(Caret)) {
        var tail := p.rest[1..];
        FactorSpells(tail);
        var q, d := ParseFactor(tail), ParseFactor(Canon(tail));
        Spelled(tail, true, q, d);
        var whole := if q.Ok? then Ok(Pow(p.tree, q.tree), q.rest) else Fail;
        var whole' := if d.Ok? then Ok(Pow(p.tree, d.tree), d.rest) else Fail;
        SameTokens(tail, true, q, d, whole, whole');
        ThenToken(p.rest, false, whole, whole');
        ThenRest(ts, true, p, c, whole, whole');
      }
    }
  }

  /** Another tree for the same tokens. */
  lemma {:induction false} SameTokens(ts: seq<Token>, due: bool, p: Parsed, c: Parsed, q: Parsed, d: Parsed)
    requires Spells(ts, due, p, c)
    requires q.Ok? == p.Ok? && d.Ok? == c.Ok? && (q.Ok? ==> q.rest == p.rest) && (d.Ok? ==> d.rest == c.rest)
    requires q.Ok? && d.Ok? ==> q.tree == d.tree
    ensures Spells(ts, due, q, d)
  {
  }

  lemma {:induction false} PostfixSpells(ts: seq<Token>)
    ensures Spells(ts, true, ParsePostfix(ts), ParsePostfix(Canon(ts)))
    decreases |ts|, 4
  {
    hide Spells, Canon;
    UnarySpells(ts);
    var p, c := ParseUnary(ts), ParseUnary(Canon(ts));
    Spelled(ts, true, p, c);
    if p.Ok? {
      PostfixLoopSpells(p.tree, p.rest);
      ThenRest(ts, true, p, c, PostfixLoop(p.tree, p.rest), PostfixLoop(p.tree, Canon(p.rest)));
    }
  }

  lemma {:induction false} PostfixLoopSpells(e: Expr, ts: seq<Token>)
    ensures Spells(ts, false, PostfixLoop(e, ts), PostfixLoop(e, Canon(ts)))
    decreases |ts|, 0
  {
    HeadsAlike(ts);
    hide Spells, Canon;
    if At(ts, Op(Bang)) || At(ts, Op(PercentSign)) {
      var whole := if At(ts, Op(Bang)) then Fact(e) else Percent(e);
      PostfixLoopSpells(whole, ts[1..]);
      ThenToken(ts, false, PostfixLoop(whole, ts[1..]), PostfixLoop(whole, Canon(ts[1..])));
    } else {
      NothingRead(ts, e);
    }
  }

  lemma {:induction false} UnarySpells(ts: seq<Token>)
    ensures Spells(ts, true, ParseUnary(ts), ParseUnary(Canon(ts)))
    decreases |ts|, 3
  {
    HeadsAlike(ts);
    hide Canon, ParseAtom;
    if At(ts, Op(Minus)) || At(ts, Op(MinusSign)) {
      UnarySpells(ts[1..]);
      var p, c := ParseUnary(ts[1..]), ParseUnary(Canon(ts[1..]));
      SameTokens(ts[1..], true, p, c, ParseUnary(ts), ParseUnary(Canon(ts)));
      ThenToken(ts, true, ParseUnary(ts), ParseUnary(Canon(ts)));
    } else if At(ts, Op(Plus)) {
      UnarySpells(ts[1..]);
      ThenToken(ts, true, ParseUnary(ts), ParseUnary(Canon(ts)));
    } else {
      AtomSpells(ts);
    }
  }

  lemma {:induction false} AtomSpells(ts: seq<Token>)
    ensures Spells(ts, true, ParseAtom(ts), ParseAtom(Canon(ts)))
    decreases |ts|, 2
  {
    if ts != [] {
      HeadSpelled(ts);
      hide Spells, Canon;
      var p, c := ParseAtom(ts), ParseAtom(Canon(ts));
      if ts[0].Latex? {
        CommandSpells(ts);
      } else if ts[0].Name? {
        NameSpells(ts[0].raw, ts[1..]);
        ThenToken(ts, true, p, c);
      } else if ts[0].LParen? || ts[0].LBrace? {
        ClosedSpells(ts[1..], if ts[0].LParen? then RParen else RBrace);
        ThenToken(ts, true, p, c);
      } else if ts[0].Number? {
        NothingRead(ts[1..], Num(ts[0].value));
        ThenToken(ts, true, p, c);
      } else {
        FailSpells(ts, true);
      }
    } else {
      assert Canon(ts) == [];
    }
  }

  lemma {:induction false} NamesAlike(raw: string)
    ensures Classify(Lower(CanonName(raw))) == Classify(Lower(raw))
    ensures var c := Classify(Lower(raw)); c.ListName? || c.FunctionName? ==> Lower(CanonName(raw)) == Lower(raw)
  {
    LowerIdempotent(raw);
    assert Lower(PI_SIGN) == PI_SIGN && Lower(INFINITY_SIGN) == INFINITY_SIGN && Lower(ROOT_SIGN) == ROOT_SIGN;
    assert Lower("tau") == "tau" && Lower("e") == "e" && Lower("frac") == "frac";
  }

  lemma {:induction false} NameSpells(raw: string, ts: seq<Token>)
    ensures Spells(ts, Opens(Name(raw)), ParseName(raw, ts), ParseName(CanonName(raw), Canon(ts)))
    decreases |ts|, 14
  {
    NamesAlike(raw);
    hide Spells, Canon, CanonName;
    match Classify(Lower(raw)) {
      case ConstantName(c) => NothingRead(ts, Const(c));
      case FractionName => FractionSpells(ts);
      case RootName => RootSpells(ts);
      case ListName => ListSpells(Lower(raw), ts, false);
      case FunctionName => FunctionCallSpells(Lower(raw), ts, false);
    }
  }

  predicate ConstantCommand(command: string) { command == "pi" || command == "tau" || command == "infty" }

  function ConstantOf(command: string): Constant {
    if command == "pi" then Pi else if command == "tau" then Tau else Infinity
  }

  /** How a command is read. */
  lemma {:induction false} CommandMeans(command: string, ts: seq<Token>)
    ensures command == "frac" || command == "dfrac" ==> ParseLatex(command, ts) == ParseFraction(ts)
    ensures ConstantCommand(command) ==> ParseLatex(command, ts) == Ok(Const(ConstantOf(command)), ts)
    ensures OperatorCommand(Latex(command)) ==> ParseLatex(command, ts) == ParseFunctionCall(command, ts)
  {
    hide ParseFraction, ParseFunctionCall, ParseBraced;
    assert "pi"[0] == 'p' && "tau"[0] == 't' && "infty"[0] == 'i' && "sqrt"[0] == 's';
    assert "times"[1] == 'i' && "tau"[1] == 'a' && "cdot"[0] == 'c' && "div"[1] == 'i' && "dfrac"[1] == 'f';
    assert "frac"[0] == 'f' && "div"[0] == 'd';
  }

  /** How its canonical spelling is read. */
  lemma {:induction false} CanonCommandMeans(command: string, us: seq<Token>)
    requires us != [] && us[0] == CanonToken(Latex(command))
    ensures OperatorCommand(Latex(command)) ==> ParseAtom(us) == Fail
    ensures command == "frac" || command == "dfrac" ==> ParseAtom(us) == ParseFraction(us[1..])
    ensures ConstantCommand(command) ==> ParseAtom(us) == Ok(Const(ConstantOf(command)), us[1..])
    ensures us[0].Latex? ==> us[0].command == command
  {
    hide ParseFraction, ParseFunctionCall, ParseBraced, ParseLatex;
    assert "pi"[0] == 'p' && "tau"[0] == 't' && "infty"[0] == 'i';
    assert "times"[1] == 'i' && "tau"[1] == 'a' && "cdot"[0] == 'c' && "div"[1] == 'i' && "dfrac"[1] == 'f';
    assert "frac"[0] == 'f' && "div"[0] == 'd';
    assert Lower(PI_SIGN) == PI_SIGN && Lower(INFINITY_SIGN) == INFINITY_SIGN;
    assert Lower("tau") == "tau" && Lower("frac") == "frac";
    assert PI_SIGN[0] != INFINITY_SIGN[0];
  }

  lemma {:induction false} CommandSpells(ts: seq<Token>)
    requires ts != [] && ts[0].Latex?
    ensures Spells(ts, true, ParseAtom(ts), ParseAtom(Canon(ts)))
    decreases |ts|, 1
  {
    var command, tail := ts[0].command, ts[1..];
    HeadSpelled(ts);
    CommandMeans(command, tail);
    CanonCommandMeans(command, Canon(ts));
    var p, c := ParseAtom(ts), ParseAtom(Canon(ts));
    assert p == ParseLatex(command, tail);
    hide Spells, Canon;
    if OperatorCommand(ts[0]) {
      hide ParseLatex, ParseAtom;
      FunctionCallSpells(command, tail, true);
      ThenToken(ts, true, p, ParseFunctionCall(command, Canon(tail)));
    } else if command == "frac" || command == "dfrac" {
      hide ParseLatex, ParseAtom;
      FractionSpells(tail);
      ThenToken(ts, true, p, c);
    } else if ConstantCommand(command) {
      hide ParseLatex, ParseAtom;
      NothingRead(tail, p.tree);
      ThenToken(ts, true, p, c);
    } else {
      OtherCommandSpells(command, tail);
      ThenToken(ts, true, p, c);
    }
  }

  lemma {:induction false} OtherCommandSpells(command: string, ts: seq<Token>)
    requires !ConstantCommand(command) && command != "frac" && command != "dfrac"
    ensures Spells(ts, false, ParseLatex(command, ts), ParseLatex(command, Canon(ts)))
    decreases |ts|, 14
  {
    hide Canon;
    if command == "sqrt" {
      BracedSpells(ts, false);
      SameTokens(ts, false, ParseBraced(ts), ParseBraced(Canon(ts)), ParseLatex(command, ts), ParseLatex(command, Canon(ts)));
    } else {
      FunctionCallSpells(command, ts, false);
    }
  }

  lemma {:induction false} ClosedSpells(ts: seq<Token>, close: Token)
    requires close == RParen || close == RBrace
    ensures Spells(ts, true, ParseClosed(ts, close), ParseClosed(Canon(ts), close))
    decreases |ts|, 10
  {
    hide Spells, Canon;
    ExprSpells(ts);
    var p, c := ParseExpr(ts), ParseExpr(Canon(ts));
    Spelled(ts, true, p, c);
    if p.Ok? {
      HeadsAlike(p.rest);
      if At(p.rest, close) {
        CloseSpells(ts, p, c, p.tree);
      } else {
        FailSpells(p.rest, false);
        ThenRest(ts, true, p, c, Fail, Fail);
      }
    }
  }

  /** A closing token after what `p` has read. */
  lemma {:induction false} CloseSpells(ts: seq<Token>, p: Parsed, c: Parsed, tree: Expr)
    requires Spells(ts, true, p, c) && p.Ok? && p.rest != [] && (p.rest[0] == RParen || p.rest[0] == RBrace)
    ensures Spells(ts, true, Ok(tree, p.rest[1..]), if c.Ok? then Ok(tree, Canon(p.rest[1..])) else Fail)
  {
    hide Spells, Canon;
    NothingRead(p.rest[1..], tree);
    ThenToken(p.rest, false, Ok(tree, p.rest[1..]), Ok(tree, Canon(p.rest[1..])));
    ThenRest(ts, true, p, c, Ok(tree, p.rest[1..]), Ok(tree, Canon(p.rest[1..])));
  }

  lemma {:induction false} BracedSpells(ts: seq<Token>, due: bool)
    ensures Spells(ts, due, ParseBraced(ts), ParseBraced(Canon(ts)))
    decreases |ts|, 11
  {
    HeadsAlike(ts);
    hide Spells, Canon;
    if At(ts, LBrace) {
      ClosedSpells(ts[1..], RBrace);
      ThenToken(ts, due, ParseBraced(ts), ParseBraced(Canon(ts)));
    } else {
      FailSpells(ts, due);
    }
  }

  lemma {:induction false} FractionSpells(ts: seq<Token>)
    ensures Spells(ts, false, ParseFraction(ts), ParseFraction(Canon(ts)))
    decreases |ts|, 12
  {
    hide Spells, Canon;
    BracedSpells(ts, false);
    var p, c := ParseBraced(ts), ParseBraced(Canon(ts));
    Spelled(ts, false, p, c);
    if p.Ok? {
      BracedSpells(p.rest, false);
      var q, d := ParseBraced(p.rest), ParseBraced(Canon(p.rest));
      Spelled(p.rest, false, q, d);
      var whole := if q.Ok? then Ok(Frac(p.tree, q.tree), q.rest) else Fail;
      var whole' := if d.Ok? then Ok(Frac(p.tree, d.tree), d.rest) else Fail;
      SameTokens(p.rest, false, q, d, whole, whole');
      ThenRest(ts, false, p, c, whole, whole');
    }
  }

  lemma {:induction false} RootSpells(ts: seq<Token>)
    ensures Spells(ts, true, ParseRoot(ts), ParseRoot(Canon(ts)))
    decreases |ts|, 13
  {
    HeadsAlike(ts);
    hide Canon;
    if At(ts, LParen) {
      CommaArgsSpells(ts, true);
      var p, c := ParseCommaArgs(ts), ParseCommaArgs(Canon(ts));
      Spelled(ts, true, AsCall(p), AsCall(c));
      if p.OkArgs? && p.trees != [] {
        SameTokens(ts, true, AsCall(p), AsCall(c), ParseRoot(ts), ParseRoot(Canon(ts)));
      }
    } else if At(ts, LBrace) {
      BracedSpells(ts, true);
      SameTokens(ts, true, ParseBraced(ts), ParseBraced(Canon(ts)), ParseRoot(ts), ParseRoot(Canon(ts)));
    } else {
      UnarySpells(ts);
      SameTokens(ts, true, ParseUnary(ts), ParseUnary(Canon(ts)), ParseRoot(ts), ParseRoot(Canon(ts)));
    }
  }

  lemma {:induction false} ListSpells(name: string, ts: seq<Token>, due: bool)
    ensures Spells(ts, due, ParseList(name, ts), ParseList(name, Canon(ts)))
    decreases |ts|, 12
  {
    hide Canon;
    CommaArgsSpells(ts, due);
    SameTokens(ts, due, AsCall(ParseCommaArgs(ts)), AsCall(ParseCommaArgs(Canon(ts))),
               ParseList(name, ts), ParseList(name, Canon(ts)));
  }

  lemma {:induction false} FunctionCallSpells(name: string, ts: seq<Token>, due: bool)
    ensures Spells(ts, due, ParseFunctionCall(name, ts), ParseFunctionCall(name, Canon(ts)))
    decreases |ts|, 13
  {
    HeadsAlike(ts);
    hide Canon;
    if At(ts, LParen) {
      ListSpells(name, ts, due);
    } else if At(ts, LBrace) {
      BracedSpells(ts, due);
      SameTokens(ts, due, ParseBraced(ts), ParseBraced(Canon(ts)),
                 ParseFunctionCall(name, ts), ParseFunctionCall(name, Canon(ts)));
    }
  }

  /** Arguments as one tree. */
  function AsCall(p: ParsedArgs): Parsed {
    if p.FailArgs? then Fail else Ok(Call("", p.trees), p.rest)
  }

  lemma {:induction false} CommaArgsSpells(ts: seq<Token>, due: bool)
    ensures Spells(ts, due, AsCall(ParseCommaArgs(ts)), AsCall(ParseCommaArgs(Canon(ts))))
    decreases |ts|, 11
  {
    HeadsAlike(ts);
    hide Spells, Canon;
    var p, c := AsCall(ParseCommaArgs(ts)), AsCall(ParseCommaArgs(Canon(ts)));
    if At(ts, LParen) {
      var tail := ts[1..];
      HeadsAlike(tail);
      if At(tail, RParen) {
        NothingRead(tail[1..], Call("", []));
        ThenToken(tail, true, p, c);
      } else {
        ArgsLoopSpells([], tail);
      }
      ThenToken(ts, due, p, c);
    } else {
      FailSpells(ts, due);
    }
  }

  lemma {:induction false} ArgsLoopSpells(args: seq<Expr>, ts: seq<Token>)
    ensures Spells(ts, true, AsCall(ArgsLoop(args, ts)), AsCall(ArgsLoop(args, Canon(ts))))
    decreases |ts|, 10
  {
    hide Spells, Canon, ParseExpr;
    ExprSpells(ts);
    var p, c := ParseExpr(ts), ParseExpr(Canon(ts));
    Spelled(ts, true, p, c);
    if p.Ok? {
      HeadsAlike(p.rest);
      if At(p.rest, Op(Comma)) {
        var tail, done := p.rest[1..], args + [p.tree];
        ArgsLoopSpells(done, tail);
        var q, d := AsCall(ArgsLoop(done, tail)), AsCall(ArgsLoop(done, Canon(tail)));
        ThenToken(p.rest, false, q, d);
        ThenRest(ts, true, p, c, q, d);
      } else if At(p.rest, RParen) {
        CloseSpells(ts, p, c, Call("", args + [p.tree]));
      } else {
        FailSpells(p.rest, false);
        ThenRest(ts, true, p, c, Fail, Fail);
      }
    } else {
      FailSpells(ts, true);
    }
  }

  // ---- Whole streams ----

  /** What is accepted reads the same in every spelling, exactly if no operator command stands where an operand is due;
      and what is rejected is rejected in every spelling. */
  lemma {:induction false} AnySpelling(ts: seq<Token>)
    ensures ParseFull(ts).Fail? ==> ParseFull(Canon(ts)).Fail?
    ensures ParseFull(ts).Ok? ==> (ParseFull(Canon(ts)) == ParseFull(ts) <==> Clean(ts, true))
    ensures ParseFull(ts).Ok? && !Clean(ts, true) ==> ParseFull(Canon(ts)).Fail?
  {
    ExprSpells(ts);
    var p := ParseExpr(ts);
    if p.Ok? {
      var n := |ts| - |p.rest|;
      assert Canon(p.rest) == [] <==> p.rest == [];
      assert Canon(p.rest) == [Op(Equals)] <==> p.rest == [Op(Equals)] by {
        if |p.rest| == 1 { HeadSpelled(p.rest); }
      }
      if p.rest == [] {
        assert ts[..n] == ts;
      } else if p.rest == [Op(Equals)] {
        assert ts == ts[..n] + [Op(Equals)];
        CleanJoins(ts[..n], [Op(Equals)], true);
        CleanToken(Op(Equals), false);
      }
    }
  }
}
