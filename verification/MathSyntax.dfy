/** Tokens, syntax trees and the token-level printer of the Quick Bar's math engine. */
module MathSyntax {

  /** The thirteen one-character operators the tokenizer accepts; MinusSign is U+2212. */
  datatype Op =
    | Plus | Minus | MinusSign | Star | Slash | Caret | Bang | PercentSign
    | Comma | Equals | Times | Divide | MiddleDot

  datatype Token =
    | Number(value: real)
    | Name(raw: string)
    | Latex(command: string)
    | Op(op: Op)
    | LParen | RParen | LBrace | RBrace

  datatype Constant = Pi | E | Tau | Infinity

  datatype Expr =
    | Num(value: real)
    | Const(constant: Constant)
    | Neg(a: Expr)
    | Add(a: Expr, b: Expr)
    | Sub(a: Expr, b: Expr)
    | Mul(a: Expr, b: Expr)
    | Div(a: Expr, b: Expr)
    | Pow(a: Expr, b: Expr)
    | Call(name: string, args: seq<Expr>)
    | Frac(a: Expr, b: Expr)
    | Sqrt(a: Expr)
    | Fact(a: Expr)
    | Percent(a: Expr)

  const PI_SIGN := "\U{3C0}"
  const TAU_SIGN := "\U{3C4}"
  const INFINITY_SIGN := "\U{221E}"
  const ROOT_SIGN := "\U{221A}"

  // ---- Case folding ----

  /** ASCII letters, and the only other letters that fold into those of a name the parser knows: the capital pi and the
      Kelvin sign. */
  function LowerChar(c: char): char {
    if 'A' <= c <= 'Z' then (c as int + 32) as char
    else if c == '\U{3A0}' then '\U{3C0}'
    else if c == '\U{212A}' then 'k'
    else c
  }

  function Lower(s: string): string {
    seq(|s|, i requires 0 <= i < |s| => LowerChar(s[i]))
  }

  // ---- What a function name means to the parser ----

  datatype NameClass = ConstantName(c: Constant) | FractionName | RootName | ListName | FunctionName

  /** The dispatch on a name that has already been lower-cased. */
  function Classify(lower: string): NameClass {
    if lower == "pi" || lower == PI_SIGN then ConstantName(Pi)
    else if lower == "tau" then ConstantName(Tau)
    else if lower == "e" then ConstantName(E)
    else if lower == "infinity" || lower == INFINITY_SIGN then ConstantName(Infinity)
    else if lower == "frac" || lower == "dfrac" then FractionName
    else if lower == "sqrt" || lower == ROOT_SIGN then RootName
    else if lower == "min" || lower == "max" then ListName
    else FunctionName
  }

  /** A name that the parser turns back into a call of that same name. */
  predicate Callable(name: string) {
    Lower(name) == name && (Classify(name).ListName? || Classify(name).FunctionName?)
  }

  // ---- The printer, on tokens ----

  function ConstantToken(c: Constant): Token {
    match c
    case Pi => Name(PI_SIGN)
    case Tau => Name(TAU_SIGN)
    case E => Name("e")
    case Infinity => Name(INFINITY_SIGN)
  }

  function Wrap(outer: bool, s: seq<Token>): seq<Token> {
    if outer then [LParen] + s + [RParen] else s
  }

  function Render(e: Expr, minPrec: nat): seq<Token>
    decreases e, 1
  {
    match e
    case Num(v) => [Number(v)]
    case Const(c) => [ConstantToken(c)]
    case Neg(a) => Wrap(minPrec > 3, [Op(Minus)] + Render(a, 4))
    case Add(a, b) => Wrap(minPrec > 1, Render(a, 2) + [Op(Plus)] + Render(b, 2))
    case Sub(a, b) => Wrap(minPrec > 1, Render(a, 2) + [Op(Minus)] + Render(b, 2))
    case Mul(a, b) => Wrap(minPrec > 2, Render(a, 3) + [Op(Times)] + Render(b, 3))
    case Div(a, b) => Wrap(minPrec > 2, Render(a, 3) + [Op(Slash)] + Render(b, 3))
    case Pow(a, b) => Wrap(minPrec > 4, Render(a, 4) + [Op(Caret)] + Render(b, 4))
    case Fact(a) => Wrap(minPrec > 4, Render(a, 4) + [Op(Bang)])
    case Percent(a) => Wrap(minPrec > 4, Render(a, 3) + [Op(PercentSign)])
    case Frac(a, b) => Wrap(minPrec > 2, Render(a, 3) + [Op(Slash)] + Render(b, 3))
    case Sqrt(a) => Wrap(minPrec > 4, [Name(ROOT_SIGN)] + Render(a, 4))
    case Call(name, args) => Wrap(minPrec > 5, [Name(name), LParen] + RenderArgs(args) + [RParen])
  }

  function RenderArgs(args: seq<Expr>): seq<Token>
    decreases args, 0
  {
    if args == [] then []
    else if |args| == 1 then Render(args[0], 2)
    else Render(args[0], 2) + [Op(Comma)] + RenderArgs(args[1..])
  }
}
