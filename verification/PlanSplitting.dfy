/** Which characters end a piece of a command line, and what that does to the verdict. */
module PlanSplitting {
  import opened PlanSyntax
  import opened PlanVerdicts

  predicate IsSeparator(c: char) { c == ';' || c == '|' || c == '\n' || c == '&' }

  /** `a` ends in a redirection with nothing yet after its operator but white space. */
  predicate Dangling(a: string, at: Scan) {
    a != "" &&
    var m := Next(a, at);
    if m.length < |a| then Dangling(a[m.length..], m.next)
    else !Keeps(at, a[0]) && IsRedirection(a[0]) && !Starts(a[1..], '(') && Skip(a[1..]) == |a| - 1
  }

  /** A redirection at the end of `a` would take the character for its own: an ampersand makes it a duplication, and a
      newline is white space before its target. */
  predicate Takes(a: string, at: Scan, c: char) { (c == '&' || c == '\n') && Dangling(a, at) }

  // ---- A step is the same when a separator follows ----

  lemma {:induction false} GroupWithin(s: string, t: string, level: nat)
    requires GroupCloses(s, level)
    ensures GroupLength(s + t, level) == GroupLength(s, level) && GroupCloses(s + t, level)
    decreases |s|
  {
    if level > 0 {
      assert (s + t)[1..] == s[1..] + t;
      GroupWithin(s[1..], t, LevelAfter(s[0], level));
    }
  }

  lemma InnerWithin(s: string, t: string, n: nat)
    requires n <= |s|
    ensures Inner(s + t, n) == Inner(s, n)
  {
    if n > 0 { assert (s + t)[..n - 1] == s[..n - 1]; }
  }

  lemma {:induction false} RunWithin(s: string, t: string, p: char -> bool)
    requires Run(s, p) < |s| || (t != "" && !p(t[0]))
    ensures Run(s + t, p) == Run(s, p)
    decreases |s|
  {
    if s == "" {
      assert s + t == t;
    } else {
      assert (s + t)[1..] == s[1..] + t;
      if p(s[0]) { RunWithin(s[1..], t, p); }
    }
  }

  lemma {:induction false} TargetWithin(s: string, t: string, q: Quote)
    requires t != "" && EndsTarget(t[0]) && !IsQuote(t[0]) && !ReadTarget(s, q).open
    ensures ReadTarget(s + t, q) == ReadTarget(s, q)
    decreases |s|
  {
    if s == "" {
      assert s + t == t;
    } else {
      assert (s + t)[1..] == s[1..] + t;
      if q.Quoted? {
        TargetWithin(s[1..], t, if s[0] == q.mark then Unquoted else q);
      } else if IsQuote(s[0]) {
        TargetWithin(s[1..], t, Quoted(s[0]));
      } else if !EndsTarget(s[0]) {
        TargetWithin(s[1..], t, Unquoted);
      }
    }
  }

  lemma SeparatorsEnd(c: char)
    requires IsSeparator(c)
    ensures EndsTarget(c) && !IsQuote(c) && !IsDigit(c) && !IsRedirection(c) && c != '(' && (IsSpace(c) ==> c == '\n')
    ensures IsOperator(c)
  {
  }

  lemma {:induction false} RedirectionWithin(s: string, t: string, isInput: bool)
    requires t != "" && IsSeparator(t[0]) && !ReadRedirection(s, isInput).open
    requires t[0] == '&' || t[0] == '\n' ==> Skip(s) < |s|
    ensures ReadRedirection(s + t, isInput) == ReadRedirection(s, isInput)
  {
    hide Run, IsSpace, ReadTarget;
    var skip := Skip(s);
    SeparatorsEnd(t[0]);
    SkipWithin(s, t);
    var rest := s[skip..];
    assert (s + t)[skip..] == rest + t;
    if Starts(rest, '&') {
      assert (rest + t)[1..] == rest[1..] + t;
      DigitsWithin(rest[1..], t);
    } else if !(isInput && Starts(rest, '<')) {
      TargetWithin(rest, t, Unquoted);
    }
  }

  lemma {:induction false} SkipWithin(s: string, t: string)
    requires t != "" && IsSeparator(t[0]) && (t[0] == '\n' ==> Skip(s) < |s|)
    ensures Skip(s + t) == Skip(s)
  {
    var more := if Starts(s, '>') then 1 else 0;
    assert (s + t)[more..] == s[more..] + t;
    SeparatorsEnd(t[0]);
    RunWithin(s[more..], t, IsSpace);
  }

  lemma DigitsWithin(s: string, t: string)
    requires t != "" && !IsDigit(t[0])
    ensures Run(s + t, IsDigit) == Run(s, IsDigit)
  {
    RunWithin(s, t, IsDigit);
  }

  lemma ProcessWithin(rest: string, t: string)
    requires Starts(rest, '(') && GroupCloses(rest[1..], 1)
    ensures Starts(rest + t, '(') && GroupCloses((rest + t)[1..], 1)
    ensures var n := GroupLength(rest[1..], 1);
      GroupLength((rest + t)[1..], 1) == n && Inner((rest + t)[1..], n) == Inner(rest[1..], n)
  {
    assert (rest + t)[1..] == rest[1..] + t;
    GroupWithin(rest[1..], t, 1);
    InnerWithin(rest[1..], t, GroupLength(rest[1..], 1));
  }

  /** One of two operator characters that are read as one. */
  predicate Doubles(s: string, t: string, at: Scan) {
    |s| == 1 && (s[0] == '&' || s[0] == '|') && Starts(t, s[0]) && !Keeps(at, s[0])
  }

  lemma {:induction false} NextWithin(s: string, t: string, at: Scan)
    requires s != "" && t != "" && IsSeparator(t[0]) && !Next(s, at).open && !Doubles(s, t, at)
    requires Takes(s, at, t[0]) ==> Next(s, at).length < |s|
    ensures Next(s + t, at) == Next(s, at)
  {
    hide GroupLength, GroupCloses, ReadRedirection, Inner, Flushed, Kept, Skip;
    var ch, rest := s[0], s[1..];
    assert (s + t)[1..] == rest + t && (rest != "" ==> (rest + t)[0] == rest[0]) && (rest == "" ==> (rest + t)[0] == t[0]);
    SeparatorsEnd(t[0]);
    if Keeps(at, ch) || IsOperator(ch) {
    } else if Starts(rest, '(') {
      if GroupCloses(rest[1..], 1) { ProcessWithin(rest, t); }
    } else {
      SkipWhole(rest, ch == '<');
      if !ReadRedirection(rest, ch == '<').open {
        assert t[0] == '&' || t[0] == '\n' ==> Skip(rest) < |rest|;
        RedirectionWithin(rest, t, ch == '<');
      }
    }
  }

  lemma SkipWhole(s: string, isInput: bool)
    ensures Skip(s) == |s| ==> ReadRedirection(s, isInput).length == |s|
  {
  }

  // ---- Separators ----

  lemma NothingFlushed()
    ensures Flushed("") == [] && Pieces("", START) == []
  {
  }

  /** A separator with nothing before it separates nothing. */
  lemma {:induction false} NothingBefore(c: char, b: string)
    requires IsSeparator(c)
    ensures Pieces([c] + b, START) == Pieces(b, START)
    decreases |b|
  {
    hide Flushed;
    NothingFlushed();
    assert ([c] + b)[1..] == b;
    PiecesStep([c] + b, START);
    if (c == '&' || c == '|') && Starts(b, c) {
      assert ([c] + b)[2..] == b[1..];
      NothingBefore(c, b[1..]);
      assert b == [c] + b[1..];
    }
  }

  lemma PiecesStep(s: string, at: Scan)
    requires s != ""
    ensures var m := Next(s, at); Pieces(s, at) == m.pieces + Pieces(s[m.length..], m.next)
  {
    hide Next;
  }

  lemma Regroup(x: seq<Piece>, y: seq<Piece>, z: seq<Piece>)
    ensures x + (y + z) == x + y + z
  {
  }

  lemma DropWithin(a: string, t: string, n: nat)
    requires n <= |a|
    ensures (a + t)[n..] == a[n..] + t
  {
  }

  lemma {:induction false} SeparatorFirst(t: string, at: Scan)
    requires t != "" && IsSeparator(t[0]) && at.quote.Unquoted? && !at.escaped
    ensures Pieces(t, at) == Flushed(at.cur) + Pieces(t[1..], START)
  {
    hide Flushed;
    PiecesStep(t, at);
    if (t[0] == '&' || t[0] == '|') && Starts(t[1..], t[0]) {
      NothingBefore(t[0], t[2..]);
      assert t[1..] == [t[0]] + t[2..];
    }
  }

  lemma {:induction false} DoubledFirst(a: string, t: string, at: Scan)
    requires t != "" && Doubles(a, t, at)
    ensures Pieces(a + t, at) == Pieces(a, at) + Pieces(t[1..], START)
  {
    hide Flushed, Pieces;
    assert (a + t)[1..] == t && (a + t)[2..] == t[1..] && a[1..] == "";
    assert Next(a + t, at) == Move(Flushed(at.cur), 2, START, false);
    assert Next(a, at) == Move(Flushed(at.cur), 1, START, false);
    hide Next;
    PiecesStep(a + t, at);
    PiecesStep(a, at);
    NothingFlushed();
  }

  /** A separator after a closed line ends its last piece, unless a redirection takes it. */
  lemma {:induction false} SeparatorSplits(a: string, t: string, at: Scan)
    requires Closed(a, at) && t != "" && IsSeparator(t[0]) && !Takes(a, at, t[0])
    ensures Pieces(a + t, at) == Pieces(a, at) + Pieces(t[1..], START)
    decreases |a|
  {
    hide Next, Pieces, Flushed, Skip, IsSeparator;
    if a == "" {
      assert a + t == t;
      EmptyPieces(at);
      SeparatorFirst(t, at);
    } else if Doubles(a, t, at) {
      DoubledFirst(a, t, at);
    } else {
      var m := Next(a, at);
      NextWithin(a, t, at);
      PiecesStep(a, at);
      PiecesStep(a + t, at);
      DropWithin(a, t, m.length);
      TakesLater(a, at, t[0]);
      SeparatorSplits(a[m.length..], t, m.next);
      Regroup(m.pieces, Pieces(a[m.length..], m.next), Pieces(t[1..], START));
    }
  }

  lemma EmptyPieces(at: Scan)
    ensures Pieces("", at) == Flushed(at.cur)
  {
  }

  lemma TakesLater(a: string, at: Scan, c: char)
    requires a != "" && !Takes(a, at, c)
    ensures !Takes(a[Next(a, at).length..], Next(a, at).next, c)
  {
    hide Next, Skip;
  }

  predicate IsOperatorText(sep: string) { sep in [";", "|", "||", "\n", "&", "&&"] }

  lemma {:induction false} OperatorSplits(a: string, sep: string, b: string)
    requires Closed(a, START) && IsOperatorText(sep) && !Takes(a, START, sep[0])
    ensures Pieces(a + (sep + b), START) == Pieces(a, START) + Pieces(b, START)
  {
    OperatorTexts(sep);
    hide *;
    var t := sep + b;
    SeparatorSplits(a, t, START);
    assert t[1..] == (if |sep| == 1 then b else [sep[0]] + b);
    NothingBefore(sep[0], b);
  }

  lemma OperatorTexts(sep: string)
    requires IsOperatorText(sep)
    ensures sep != "" && IsSeparator(sep[0]) && (|sep| == 1 || (|sep| == 2 && sep[1] == sep[0]))
  {
  }

  /** `;`, `|`, a newline, `&`, `||` and `&&` separate the pieces of a closed line from those of what follows, unless the
      line ends in a redirection that takes an ampersand or a newline as its own. */
  lemma {:induction false} OperatorsSplit(a: string, b: string)
    requires Closed(a, START)
    ensures forall sep | sep in [";", "|", "||"] :: Pieces(a + (sep + b), START) == Pieces(a, START) + Pieces(b, START)
    ensures !Dangling(a, START) ==>
      forall sep | sep in ["\n", "&", "&&"] :: Pieces(a + (sep + b), START) == Pieces(a, START) + Pieces(b, START)
  {
    hide Pieces, Closed, Dangling;
    forall sep | IsOperatorText(sep) && !Takes(a, START, sep[0])
      ensures Pieces(a + (sep + b), START) == Pieces(a, START) + Pieces(b, START)
    {
      OperatorSplits(a, sep, b);
    }
    assert forall sep | sep in [";", "|", "||"] :: IsOperatorText(sep) && !Takes(a, START, sep[0]);
    assert forall sep | sep in ["\n", "&", "&&"] :: IsOperatorText(sep) && (!Dangling(a, START) ==> !Takes(a, START, sep[0]));
  }

  // ---- Why a dangling redirection is left out ----

  lemma {:induction false} RunAll(s: string, t: string, p: char -> bool)
    requires Run(s, p) == |s|
    ensures Run(s + t, p) == |s| + Run(t, p)
    decreases |s|
  {
    if s == "" {
      assert s + t == t;
    } else {
      assert (s + t)[1..] == s[1..] + t;
      RunAll(s[1..], t, p);
    }
  }

  predicate TakenText(t: string) { t == "\n1" || t == "&1" }

  lemma {:induction false} TakenSkip(s: string, t: string)
    requires Skip(s) == |s| && TakenText(t)
    ensures Skip(s + t) == |s| + if t[0] == '\n' then 1 else 0
  {
    var more := if Starts(s, '>') then 1 else 0;
    assert (s + t)[more..] == s[more..] + t;
    RunAll(s[more..], t, IsSpace);
    assert t[1..] == "1" && !IsSpace('&') && !IsSpace('1') && IsSpace('\n');
    hide IsSpace;
    assert Run(t, IsSpace) == if t[0] == '\n' then 1 else 0;
  }

  lemma OneTarget()
    ensures ReadTarget("1", Unquoted).length == 1 && Run("1", IsDigit) == 1
  {
    assert "1"[1..] == "" && !EndsTarget('1');
  }

  lemma {:induction false} TakenRedirection(s: string, t: string, isInput: bool)
    requires Skip(s) == |s| && TakenText(t)
    ensures ReadRedirection(s + t, isInput).length == |s| + 2
    ensures |ReadRedirection(s + t, isInput).pieces| <= |ReadRedirection(s, isInput).pieces|
  {
    TakenSkip(s, t);
    OneTarget();
    hide Skip, ReadTarget, Run;
    var k := if t[0] == '\n' then 1 else 0;
    assert t[1..] == "1" && (s + t)[|s| + k..] == t[k..] && s[|s|..] == "";
  }

  lemma {:induction false} TakenPieces(a: string, t: string, at: Scan)
    requires Closed(a, at) && Dangling(a, at) && TakenText(t)
    ensures |Pieces(a + t, at)| <= |Pieces(a, at)|
    decreases |a|
  {
    hide Pieces, Flushed, Skip, ReadRedirection;
    var m := Next(a, at);
    PiecesStep(a, at);
    PiecesStep(a + t, at);
    DropWithin(a, t, m.length);
    if m.length == |a| {
      assert (a + t)[1..] == a[1..] + t;
      TakenRedirection(a[1..], t, a[0] == '<');
      assert (a + t)[|a| + 2..] == "" && a[|a|..] == "";
    } else {
      NextWithin(a, t, at);
      hide Next;
      TakenPieces(a[m.length..], t, m.next);
    }
  }

  /** Where a closed line ends in a redirection without a target, an ampersand or a newline does not separate it from
      everything. */
  lemma {:induction false} DanglingTakes(a: string)
    requires Closed(a, START) && Dangling(a, START)
    ensures forall sep | sep in ["\n", "&"] :: Pieces(a + (sep + "1"), START) != Pieces(a, START) + Pieces("1", START)
  {
    forall sep | sep in ["\n", "&"]
      ensures Pieces(a + (sep + "1"), START) != Pieces(a, START) + Pieces("1", START)
    {
      assert TakenText(sep + "1");
      TakenPieces(a, sep + "1", START);
      OneDigit();
    }
  }

  /** The redirection that `a` ends in is an output. */
  predicate OutputLast(a: string, at: Scan) {
    a != "" &&
    var m := Next(a, at);
    if m.length < |a| then OutputLast(a[m.length..], m.next) else a[0] == '>'
  }

  lemma {:induction false} AmpersandTaken(s: string, isInput: bool)
    requires Skip(s) == |s|
    ensures ReadRedirection(s + "&", isInput) == Redirection([], |s| + 1, false) && !Starts(s + "&", '(')
    ensures Skip(s + "&") == |s|
    ensures ReadRedirection(s, isInput).pieces == if isInput then [] else [Output("")]
  {
    var more := if Starts(s, '>') then 1 else 0;
    assert (s + "&")[more..] == s[more..] + "&" && !IsSpace('&') && !IsSpace('(');
    RunAll(s[more..], "&", IsSpace);
    assert (s + "&")[|s|..] == "&" && "&"[1..] == "" && s[|s|..] == "";
  }

  /** An ampersand that a redirection takes leaves the line closed, without the check of an output that has no target. */
  lemma {:induction false} WithAmpersand(a: string, at: Scan)
    requires Closed(a, at) && Dangling(a, at)
    ensures Closed(a + "&", at) && !Dangling(a + "&", at)
    ensures if OutputLast(a, at) then |Pieces(a + "&", at)| < |Pieces(a, at)| else Pieces(a + "&", at) == Pieces(a, at)
    decreases |a|
  {
    hide Pieces, Flushed, Skip, ReadRedirection;
    var m := Next(a, at);
    PiecesStep(a, at);
    PiecesStep(a + "&", at);
    DropWithin(a, "&", m.length);
    if m.length == |a| {
      assert (a + "&")[1..] == a[1..] + "&";
      AmpersandTaken(a[1..], a[0] == '<');
      assert (a + "&")[|a| + 1..] == "" && a[|a|..] == "";
    } else {
      NextWithin(a, "&", at);
      hide Next;
      WithAmpersand(a[m.length..], m.next);
    }
  }

  /** Of two ampersands a dangling redirection takes the first, and the second separates: it makes a difference exactly
      if the redirection is an output, whose missing target is then not checked. */
  lemma {:induction false} TwoAmpersands(a: string, b: string)
    requires Closed(a, START) && Dangling(a, START)
    ensures Pieces(a + ("&&" + b), START) == Pieces(a, START) + Pieces(b, START) <==> !OutputLast(a, START)
  {
    hide Pieces, Closed, Dangling;
    WithAmpersand(a, START);
    var t := "&" + b;
    assert a + ("&&" + b) == (a + "&") + t && t[1..] == b;
    SeparatorSplits(a + "&", t, START);
  }

  lemma {:induction false} OneDigit()
    ensures |Pieces("1", START)| == 1
  {
    assert !IsSpace('1') && Next("1", START) == Move([], 1, Scan("1", Unquoted, false), false);
    hide Next, IsSpace, Pieces;
    PiecesStep("1", START);
    assert "1"[1..] == "";
    EmptyPieces(Scan("1", Unquoted, false));
    assert TrimLeft("1") == "1" && TrimRight("1") == "1";
  }

  // ---- Verdicts ----

  lemma {:induction false} JoinedPieces(ps: seq<Piece>, qs: seq<Piece>, depth: nat, leaf: Leaf)
    requires depth <= MAX_DEPTH
    ensures FirstPiece(ps + qs, depth, leaf).Accepted? <==>
            FirstPiece(ps, depth, leaf).Accepted? && FirstPiece(qs, depth, leaf).Accepted?
  {
    hide FirstPiece, PieceVerdict;
    FirstPieceAccepts(ps, depth, leaf);
    FirstPieceAccepts(qs, depth, leaf);
    FirstPieceAccepts(ps + qs, depth, leaf);
    assert forall i | 0 <= i < |qs| :: (ps + qs)[|ps| + i] == qs[i];
    assert forall i | 0 <= i < |ps| :: (ps + qs)[i] == ps[i];
  }

  /** `a` and `b` joined by a separator are accepted exactly when both are, if `a` leaves nothing open and does not take
      the separator for its own. */
  lemma {:induction false} SequenceAccepted(a: string, sep: string, b: string, depth: nat, leaf: Leaf)
    requires Closed(a, START) && sep in [";", "|", "||", "\n", "&", "&&"]
    requires sep[0] == '\n' || sep[0] == '&' ==> !Dangling(a, START)
    ensures LineVerdict(a + (sep + b), depth, leaf).Accepted? <==>
            LineVerdict(a, depth, leaf).Accepted? && LineVerdict(b, depth, leaf).Accepted?
  {
    OperatorSplits(a, sep, b);
    hide Pieces, FirstPiece, PieceVerdict, Closed, Dangling;
    if depth <= MAX_DEPTH {
      JoinedPieces(Pieces(a, START), Pieces(b, START), depth, leaf);
    }
  }

  // ---- What does not separate ----

  /** The quote a position lies in, and whether the character there is escaped. */
  datatype Quoting = Quoting(mark: Quote, escaped: bool)

  /** The quoting after `s`: a backslash escapes what follows it except inside single quotes, and a quote character that
      is not escaped opens a quote or closes one of its own kind. */
  function QuotingAfter(s: string): Quoting {
    if s == "" then Quoting(Unquoted, false)
    else
      var q, c := QuotingAfter(s[..|s| - 1]), s[|s| - 1];
      if q.escaped then q.(escaped := false)
      else if c == '\\' && q.mark != Quoted('\'') then q.(escaped := true)
      else if q.mark.Quoted? then (if c == q.mark.mark then q.(mark := Unquoted) else q)
      else if c == '"' || c == '\'' then q.(mark := Quoted(c))
      else q
  }

  /** Every character that could end a piece or redirect is escaped or quoted. */
  ghost predicate AllProtected(s: string) {
    forall i | 0 <= i < |s| && s[i] in ";|\n&<>" :: QuotingAfter(s[..i]).escaped || QuotingAfter(s[..i]).mark.Quoted?
  }

  lemma {:induction false} KeptThrough(s: string, i: nat)
    requires AllProtected(s) && i <= |s|
    ensures var q := QuotingAfter(s[..i]);
      Pieces(s, START) == Pieces(s[i..], Scan(s[..i], q.mark, q.escaped))
  {
    hide Next, Flushed;
    if i == 0 {
      assert s[..0] == "" && s[0..] == s;
    } else {
      KeptThrough(s, i - 1);
      var q := QuotingAfter(s[..i - 1]);
      var at := Scan(s[..i - 1], q.mark, q.escaped);
      assert s[..i][..i - 1] == s[..i - 1] && s[..i] == s[..i - 1] + [s[i - 1]];
      PiecesStep(s[i - 1..], at);
      KeepsProtected(s[i - 1..], at);
      assert s[i - 1..][1..] == s[i..];
    }
  }

  lemma KeepsProtected(s: string, at: Scan)
    requires s != "" && (s[0] in ";|\n&<>" ==> at.escaped || at.quote.Quoted?)
    ensures Next(s, at) == Move([], 1, Kept(at, s[0]), false)
  {
  }

  /** A line whose separators and redirections are all escaped or quoted is one piece, or none if it is blank. */
  lemma {:induction false} ProtectedIsOnePiece(s: string)
    requires AllProtected(s)
    ensures Pieces(s, START) == if Trim(s) == "" then [] else [Segment(Trim(s))]
  {
    KeptThrough(s, |s|);
    assert s[..|s|] == s && s[|s|..] == "";
  }
}