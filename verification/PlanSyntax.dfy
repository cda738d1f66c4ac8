/** How a command line is cut: pieces between operators, nested command lines, and output redirections. */
module PlanSyntax {

  /** What JavaScript's `\s` and `trim` take for white space. */
  predicate IsSpace(c: char) {
    c in " \t\n\r\U{000B}\U{000C}\U{00A0}\U{1680}\U{2028}\U{2029}\U{202F}\U{205F}\U{3000}\U{FEFF}"
    || '\U{2000}' <= c <= '\U{200A}'
  }

  function TrimLeft(s: string): string {
    if s != "" && IsSpace(s[0]) then TrimLeft(s[1..]) else s
  }

  function TrimRight(s: string): string {
    if s != "" && IsSpace(s[|s| - 1]) then TrimRight(s[..|s| - 1]) else s
  }

  function Trim(s: string): string { TrimRight(TrimLeft(s)) }

  /** How many characters at the start of `s` satisfy `p`. */
  function Run(s: string, p: char -> bool): nat {
    if s != "" && p(s[0]) then 1 + Run(s[1..], p) else 0
  }

  predicate IsDigit(c: char) { '0' <= c <= '9' }

  predicate Starts(s: string, c: char) { s != "" && s[0] == c }

  datatype Quote = Unquoted | Quoted(mark: char)

  // ---- Groups ----

  function LevelAfter(c: char, level: nat): nat
    requires level > 0
  {
    if c == '(' then level + 1 else if c == ')' then level - 1 else level
  }

  /** The length up to and including the parenthesis that closes `level` groups; all of `s` if there is none. */
  function GroupLength(s: string, level: nat): (n: nat)
    ensures n <= |s|
  {
    if level == 0 || s == "" then 0 else 1 + GroupLength(s[1..], LevelAfter(s[0], level))
  }

  predicate GroupCloses(s: string, level: nat) {
    level == 0 || (s != "" && GroupCloses(s[1..], LevelAfter(s[0], level)))
  }

  /** What a group holds: its text without the last character, also when no parenthesis closes it. */
  function Inner(s: string, n: nat): (inner: string)
    requires n <= |s|
    ensures |inner| <= |s|
  {
    if n == 0 then "" else s[..n - 1]
  }

  // ---- Redirections ----

  predicate IsOperator(c: char) { c == ';' || c == '|' || c == '\n' || c == '&' }

  predicate IsRedirection(c: char) { c == '<' || c == '>' }

  predicate IsQuote(c: char) { c == '"' || c == '\'' }

  predicate EndsTarget(c: char) {
    IsSpace(c) || c == ';' || c == '|' || c == '&' || c == '(' || c == ')' || IsRedirection(c)
  }

  /** The target of a redirection with quotes removed, its length in the source, and whether a quote stays open. */
  datatype Target = Target(text: string, length: nat, open: bool)

  function ReadTarget(s: string, q: Quote): (t: Target)
    ensures t.length <= |s|
  {
    if s == "" then Target("", 0, q.Quoted?)
    else if q.Quoted? then
      var t := ReadTarget(s[1..], if s[0] == q.mark then Unquoted else q);
      Target(if s[0] == q.mark then t.text else [s[0]] + t.text, t.length + 1, t.open)
    else if IsQuote(s[0]) then
      var t := ReadTarget(s[1..], Quoted(s[0]));
      t.(length := t.length + 1)
    else if EndsTarget(s[0]) then Target("", 0, false)
    else
      var t := ReadTarget(s[1..], Unquoted);
      Target([s[0]] + t.text, t.length + 1, t.open)
  }

  datatype Piece = Segment(text: string) | Process(inner: string) | Output(target: string)

  /** The length of a second `>` and of white space. */
  function Skip(s: string): (n: nat)
    ensures n <= |s|
  {
    var more := if Starts(s, '>') then 1 else 0;
    RunBound(s[more..], IsSpace);
    more + Run(s[more..], IsSpace)
  }

  /** A redirection: what it checks, its length after the operator's first character, and whether a quote stays open. */
  datatype Redirection = Redirection(pieces: seq<Piece>, length: nat, open: bool)

  /** `s` is what follows `<` or `>`. */
  function ReadRedirection(s: string, isInput: bool): (r: Redirection)
    ensures r.length <= |s|
    ensures |r.pieces| <= 1 && forall i | 0 <= i < |r.pieces| :: r.pieces[i].Output?
  {
    var skip := Skip(s);
    var rest := s[skip..];
    if Starts(rest, '&') then
      RunBound(rest[1..], IsDigit);
      Redirection([], skip + 1 + Run(rest[1..], IsDigit), false)
    else if isInput && Starts(rest, '<') then Redirection([], skip + 1, false)
    else
      var t := ReadTarget(rest, Unquoted);
      Redirection(if isInput then [] else [Output(t.text)], skip + t.length, t.open)
  }

  lemma RunBound(s: string, p: char -> bool)
    ensures Run(s, p) <= |s|
  {
  }

  // ---- Pieces ----

  function Flushed(cur: string): (ps: seq<Piece>)
    ensures |ps| <= 1
  {
    if Trim(cur) == "" then [] else [Segment(Trim(cur))]
  }

  /** Where a scan stands: the segment gathered so far, and the quoting. */
  datatype Scan = Scan(cur: string, quote: Quote, escaped: bool)
  const START := Scan("", Unquoted, false)

  /** One step of a scan: the pieces it completes, how far it goes, and whether it runs off an open group or quote. */
  datatype Move = Move(pieces: seq<Piece>, length: nat, next: Scan, open: bool)

  function Next(s: string, at: Scan): (m: Move)
    requires s != ""
    ensures 1 <= m.length <= |s| && |m.pieces| <= 1
  {
    var ch, rest := s[0], s[1..];
    if Keeps(at, ch) then Move([], 1, Kept(at, ch), false)
    else if (ch == '&' || ch == '|') && Starts(rest, ch) then Move(Flushed(at.cur), 2, START, false)
    else if IsOperator(ch) then Move(Flushed(at.cur), 1, START, false)
    else if Starts(rest, '(') then
      var n := GroupLength(rest[1..], 1);
      Move([Process(Inner(rest[1..], n))], 2 + n, at, !GroupCloses(rest[1..], 1))
    else
      var r := ReadRedirection(rest, ch == '<');
      Move(r.pieces, 1 + r.length, at, r.open)
  }

  /** Whether a character belongs to the segment: it is escaped, quoted or no operator. */
  predicate Keeps(at: Scan, ch: char) {
    at.escaped || at.quote.Quoted? || !(IsOperator(ch) || IsRedirection(ch))
  }

  function Kept(at: Scan, ch: char): Scan {
    var cur := at.cur + [ch];
    if at.escaped then at.(cur := cur, escaped := false)
    else if ch == '\\' && at.quote != Quoted('\'') then at.(cur := cur, escaped := true)
    else if at.quote.Quoted? then at.(cur := cur, quote := if ch == at.quote.mark then Unquoted else at.quote)
    else if IsQuote(ch) then at.(cur := cur, quote := Quoted(ch))
    else at.(cur := cur)
  }

  /** The pieces of `s`, scanned from `at`. */
  function Pieces(s: string, at: Scan): seq<Piece> {
    if s == "" then Flushed(at.cur)
    else var m := Next(s, at); m.pieces + Pieces(s[m.length..], m.next)
  }

  /** After `s` no quote, escape, process substitution or redirection target is left open. */
  predicate Closed(s: string, at: Scan) {
    if s == "" then at.quote.Unquoted? && !at.escaped
    else var m := Next(s, at); !m.open && Closed(s[m.length..], m.next)
  }

  predicate IsPlain(c: char) { c != '`' }

  /** The command lines inside a segment: `$( )` groups and backquotes, up to a backquote without a partner. */
  function Substitutions(s: string): seq<string> {
    if s == "" then []
    else if s[0] == '$' && Starts(s[1..], '(') then
      var n := GroupLength(s[2..], 1);
      [Inner(s[2..], n)] + Substitutions(s[2 + n..])
    else if s[0] == '`' then
      RunBound(s[1..], IsPlain);
      var n := Run(s[1..], IsPlain);
      if n == |s| - 1 then [] else [s[1..n + 1]] + Substitutions(s[n + 2..])
    else Substitutions(s[1..])
  }

  /** The command lines nested in a piece. */
  function Nested(p: Piece): seq<string> {
    match p
    case Segment(t) => Substitutions(t)
    case Process(inner) => [inner]
    case Output(_) => []
  }

  // ---- Nested lines are shorter ----

  lemma TrimShortens(s: string)
    ensures |Trim(s)| <= |s|
  {
    TrimLeftShortens(s);
    TrimRightShortens(TrimLeft(s));
  }

  lemma TrimLeftShortens(s: string) ensures |TrimLeft(s)| <= |s| {}
  lemma TrimRightShortens(s: string) ensures |TrimRight(s)| <= |s| {}

  predicate AllShorter(cs: seq<string>, n: nat) {
    forall c | c in cs :: |c| < n
  }

  lemma ConsShorter(c: string, cs: seq<string>, n: nat, m: nat)
    requires |c| < n && AllShorter(cs, m) && m <= n
    ensures AllShorter([c] + cs, n)
  {
  }

  lemma {:induction false} SubstitutionsAreShorter(s: string)
    ensures AllShorter(Substitutions(s), |s|)
    decreases |s|
  {
    hide AllShorter, GroupLength, Run;
    if s == "" {
      NoneShorter(0);
    } else if s[0] == '$' && Starts(s[1..], '(') {
      var t := s[2..];
      var n := GroupLength(t, 1);
      var tail := s[2 + n..];
      SubstitutionsAreShorter(tail);
      ConsShorter(Inner(t, n), Substitutions(tail), |s|, |tail|);
    } else if s[0] == '`' {
      RunBound(s[1..], IsPlain);
      var n := Run(s[1..], IsPlain);
      if n < |s| - 1 {
        var tail := s[n + 2..];
        SubstitutionsAreShorter(tail);
        ConsShorter(s[1..n + 1], Substitutions(tail), |s|, |tail|);
      } else {
        NoneShorter(|s|);
      }
    } else {
      SubstitutionsAreShorter(s[1..]);
      MoreShorter(Substitutions(s[1..]), |s| - 1, |s|);
    }
  }

  lemma NoneShorter(n: nat)
    ensures AllShorter([], n)
  {
  }

  lemma MoreShorter(cs: seq<string>, n: nat, m: nat)
    requires AllShorter(cs, n) && n <= m
    ensures AllShorter(cs, m)
  {
  }

  predicate Within(p: Piece, n: nat) {
    match p
    case Segment(t) => |t| <= n
    case Process(inner) => |inner| < n
    case Output(_) => true
  }

  lemma {:induction false} PiecesWithin(s: string, at: Scan, n: nat)
    requires |at.cur| + |s| <= n
    ensures forall i | 0 <= i < |Pieces(s, at)| :: Within(Pieces(s, at)[i], n)
    decreases |s|
  {
    TrimShortens(at.cur);
    if s != "" { PiecesWithin(s[Next(s, at).length..], Next(s, at).next, n); }
  }

  /** The lines nested in `p` are shorter than `n`. */
  predicate NestsShorter(p: Piece, n: nat) {
    forall j | 0 <= j < |Nested(p)| :: |Nested(p)[j]| < n
  }

  lemma NestedAreShorter(c: string)
    ensures forall i | 0 <= i < |Pieces(c, START)| :: NestsShorter(Pieces(c, START)[i], |c|)
  {
    var ps := Pieces(c, START);
    PiecesWithin(c, START, |c|);
    hide Pieces;
    forall i | 0 <= i < |ps| ensures NestsShorter(ps[i], |c|) {
      assert Within(ps[i], |c|);
      if ps[i].Segment? {
        SubstitutionsAreShorter(ps[i].text);
        hide Substitutions;
      }
    }
  }
}
