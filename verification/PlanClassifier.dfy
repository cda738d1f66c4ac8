/** The one-pass scanners of plan mode, proved to give the verdict of splitting first and checking then. */
module PlanClassifier {
  import opened PlanSyntax
  import opened PlanVerdicts

  // ---- Scanning ----

  function Rest(s: string, i: nat): (r: string)
    requires i <= |s|
    ensures |r| == |s| - i && (r != "" ==> r[0] == s[i])
  {
    s[i..]
  }

  lemma RestDrops(s: string, i: nat, n: nat)
    requires i + n <= |s|
    ensures Rest(s, i)[n..] == Rest(s, i + n)
  {
  }

  /** The same for one character, in the form the scans need. */
  lemma RestNext(s: string, i: nat)
    requires i < |s|
    ensures Rest(s, i)[1..] == Rest(s, i + 1) && Rest(s, i)[0] == s[i]
  {
  }

  lemma RestTakes(s: string, i: nat, a: nat, b: nat)
    requires a <= b && i + b <= |s|
    ensures Rest(s, i)[a..b] == s[i + a..i + b]
  {
  }

  /** The index after the parenthesis that closes the group opened before `from`. */
  method SkipGroup(s: string, from: nat) returns (end: nat)
    requires from <= |s|
    ensures end == from + GroupLength(Rest(s, from), 1) && from <= end <= |s|
  {
    hide Rest;
    var level := 1;
    end := from;
    while end < |s| && level > 0
      invariant from <= end <= |s|
      invariant from + GroupLength(Rest(s, from), 1) == end + GroupLength(Rest(s, end), level)
    {
      RestNext(s, end);
      if s[end] == '(' { level := level + 1; } else if s[end] == ')' { level := level - 1; }
      end := end + 1;
    }
  }

  method SkipRun(s: string, from: nat, p: char -> bool) returns (end: nat)
    requires from <= |s|
    ensures end == from + Run(Rest(s, from), p) && from <= end <= |s|
  {
    hide Rest;
    end := from;
    while end < |s| && p(s[end])
      invariant from <= end <= |s|
      invariant from + Run(Rest(s, from), p) == end + Run(Rest(s, end), p)
    {
      RestNext(s, end);
      end := end + 1;
    }
    if end < |s| { RestNext(s, end); }
  }

  method ScanTarget(s: string, from: nat) returns (target: string, end: nat)
    requires from <= |s|
    ensures from <= end <= |s|
    ensures target == ReadTarget(Rest(s, from), Unquoted).text && end == from + ReadTarget(Rest(s, from), Unquoted).length
  {
    hide Rest, EndsTarget;
    ghost var whole := ReadTarget(Rest(s, from), Unquoted);
    target := "";
    end := from;
    var quote := Unquoted;
    while end < |s|
      invariant from <= end <= |s|
      invariant whole.text == target + ReadTarget(Rest(s, end), quote).text
      invariant from + whole.length == end + ReadTarget(Rest(s, end), quote).length
    {
      var c := s[end];
      RestNext(s, end);
      if quote.Quoted? {
        if c == quote.mark { quote := Unquoted; } else { target := target + [c]; }
      } else if IsQuote(c) {
        quote := Quoted(c);
      } else if EndsTarget(c) {
        break;
      } else {
        target := target + [c];
      }
      end := end + 1;
    }
  }

  /** A redirection whose operator starts before `from`: where it ends and, for an output to a file, the file. */
  method ScanRedirection(s: string, from: nat, isInput: bool) returns (end: nat, pieces: seq<Piece>)
    requires from <= |s|
    ensures var r := ReadRedirection(Rest(s, from), isInput); end == from + r.length && pieces == r.pieces
  {
    hide Rest, ReadRedirection, Run, ReadTarget, Skip;
    var j := from;
    if j < |s| && s[j] == '>' { j := j + 1; }
    j := SkipRun(s, j, IsSpace);
    SkipIs(s, from, j);
    RedirectionIs(s, from, j, isInput);
    if j < |s| && s[j] == '&' {
      end := SkipRun(s, j + 1, IsDigit);
      return end, [];
    }
    if isInput && j < |s| && s[j] == '<' {
      return j + 1, [];
    }
    var target;
    target, end := ScanTarget(s, j);
    pieces := if isInput then [] else [Output(target)];
  }

  lemma SkipIs(s: string, from: nat, j: nat)
    requires from <= |s|
    requires var k := if from < |s| && s[from] == '>' then from + 1 else from; j == k + Run(Rest(s, k), IsSpace)
    ensures j == from + Skip(Rest(s, from))
  {
    var k := if from < |s| && s[from] == '>' then from + 1 else from;
    hide Rest, Run;
    RestDrops(s, from, k - from);
  }

  lemma RedirectionIs(s: string, from: nat, j: nat, isInput: bool)
    requires from <= |s| && j == from + Skip(Rest(s, from)) && j <= |s|
    ensures var r := ReadRedirection(Rest(s, from), isInput);
      if j < |s| && s[j] == '&' then from + r.length == j + 1 + Run(Rest(s, j + 1), IsDigit) && r.pieces == []
      else if isInput && j < |s| && s[j] == '<' then from + r.length == j + 1 && r.pieces == []
      else
        var t := ReadTarget(Rest(s, j), Unquoted);
        from + r.length == j + t.length && r.pieces == if isInput then [] else [Output(t.text)]
  {
    hide Rest, Run, ReadTarget, Skip;
    RestDrops(s, from, j - from);
    if j < |s| { RestNext(s, j); }
  }

  // ---- Classifying ----

  datatype Found = Nothing | Group(inner: string, end: nat)

  /** The first nested command line at or after `from`. */
  method NextCommandSubstitution(segment: string, from: nat) returns (f: Found)
    requires from <= |segment|
    ensures match f
            case Nothing => Substitutions(Rest(segment, from)) == []
            case Group(inner, end) =>
              from < end <= |segment| && Substitutions(Rest(segment, from)) == [inner] + Substitutions(Rest(segment, end))
  {
    hide Substitutions, Rest, GroupLength, Run;
    for i := from to |segment|
      invariant Substitutions(Rest(segment, from)) == Substitutions(Rest(segment, i))
    {
      if segment[i] == '$' && i + 1 < |segment| && segment[i + 1] == '(' {
        var end := SkipGroup(segment, i + 2);
        GroupFound(segment, i, end);
        return Group(if end - 1 >= i + 2 then segment[i + 2..end - 1] else "", end);
      }
      if segment[i] == '`' {
        var close := SkipRun(segment, i + 1, IsPlain);
        BackquoteFound(segment, i, close);
        if close == |segment| {
          return Nothing;
        }
        return Group(segment[i + 1..close], close + 1);
      }
      PlainFound(segment, i);
    }
    EndFound(Rest(segment, |segment|));
    return Nothing;
  }

  lemma EndFound(s: string)
    requires s == ""
    ensures Substitutions(s) == []
  {
  }

  lemma PlainFound(segment: string, i: nat)
    requires i < |segment| && segment[i] != '`' && !(segment[i] == '$' && i + 1 < |segment| && segment[i + 1] == '(')
    ensures Substitutions(Rest(segment, i)) == Substitutions(Rest(segment, i + 1))
  {
    hide Rest;
    RestNext(segment, i);
  }

  lemma GroupFound(segment: string, i: nat, end: nat)
    requires i + 1 < |segment| && segment[i] == '$' && segment[i + 1] == '('
    requires end == i + 2 + GroupLength(Rest(segment, i + 2), 1)
    ensures i < end <= |segment|
    ensures Substitutions(Rest(segment, i)) ==
      [if end - 1 >= i + 2 then segment[i + 2..end - 1] else ""] + Substitutions(Rest(segment, end))
  {
    hide Rest, GroupLength;
    RestNext(segment, i);
    RestDrops(segment, i, 2);
    GroupLengthBound(Rest(segment, i + 2), 1);
    RestDrops(segment, i, end - i);
    if end - 1 >= i + 2 { RestTakes(segment, i + 2, 0, end - 1 - (i + 2)); }
  }

  lemma GroupLengthBound(s: string, level: nat)
    ensures GroupLength(s, level) <= |s|
  {
  }

  lemma BackquoteFound(segment: string, i: nat, close: nat)
    requires i < |segment| && segment[i] == '`' && close == i + 1 + Run(Rest(segment, i + 1), IsPlain) && close <= |segment|
    ensures Substitutions(Rest(segment, i)) ==
      if close == |segment| then [] else [segment[i + 1..close]] + Substitutions(Rest(segment, close + 1))
  {
    hide Rest, Run, GroupLength;
    RestNext(segment, i);
    if close < |segment| {
      RestDrops(segment, i, close - i + 1);
      RestTakes(segment, i, 1, close - i);
    }
  }

  method ClassifySegment(segment: string, depth: nat, leaf: Leaf) returns (v: Verdict)
    requires depth <= MAX_DEPTH
    ensures v == PieceVerdict(Segment(segment), depth, leaf)
    decreases 8 - depth, 1
  {
    hide Substitutions, FirstLine, LineVerdict, Rest;
    var searchFrom := 0;
    RestOfAll(segment);
    while true
      invariant 0 <= searchFrom <= |segment|
      invariant FirstLine(Substitutions(segment), depth + 1, leaf)
             == FirstLine(Substitutions(Rest(segment, searchFrom)), depth + 1, leaf)
      decreases |segment| - searchFrom
    {
      var sub := NextCommandSubstitution(segment, searchFrom);
      if sub.Nothing? {
        NoLines(depth + 1, leaf);
        break;
      }
      FirstLineStep(sub.inner, Substitutions(Rest(segment, sub.end)), depth + 1, leaf);
      var verdict := ClassifyCommandLine(sub.inner, depth + 1, leaf);
      if verdict.Blocked? {
        return verdict;
      }
      searchFrom := sub.end;
    }
    v := if leaf(segment) then Accepted else Blocked(Command(segment));
  }

  lemma RestOfAll(s: string)
    ensures Rest(s, 0) == s
  {
  }

  lemma NoLines(depth: nat, leaf: Leaf)
    requires depth <= MAX_DEPTH + 1
    ensures FirstLine([], depth, leaf) == Accepted
  {
  }

  lemma FirstLineStep(c: string, cs: seq<string>, depth: nat, leaf: Leaf)
    requires depth <= MAX_DEPTH + 1
    ensures FirstLine([c] + cs, depth, leaf) ==
      if LineVerdict(c, depth, leaf).Accepted? then FirstLine(cs, depth, leaf) else LineVerdict(c, depth, leaf)
  {
    assert ([c] + cs)[1..] == cs;
  }

  lemma FirstPieceStep(ps: seq<Piece>, qs: seq<Piece>, depth: nat, leaf: Leaf)
    requires depth <= MAX_DEPTH && |ps| <= 1
    ensures FirstPiece(ps + qs, depth, leaf) ==
      if FirstPiece(ps, depth, leaf).Accepted? then FirstPiece(qs, depth, leaf) else FirstPiece(ps, depth, leaf)
    ensures |ps| == 1 ==> FirstPiece(ps, depth, leaf) == PieceVerdict(ps[0], depth, leaf)
  {
    if ps == [] { assert ps + qs == qs; } else { assert (ps + qs)[1..] == qs && ps[1..] == []; }
  }

  /** What the rest of a line comes to after one step of the scan. */
  lemma ScanStep(s: string, at: Scan, depth: nat, leaf: Leaf)
    requires s != "" && depth <= MAX_DEPTH
    ensures var m := Next(s, at); var v := FirstPiece(m.pieces, depth, leaf);
      FirstPiece(Pieces(s, at), depth, leaf) ==
      if v.Accepted? then FirstPiece(Pieces(s[m.length..], m.next), depth, leaf) else v
  {
    var m := Next(s, at);
    hide Next, FirstPiece;
    FirstPieceStep(m.pieces, Pieces(s[m.length..], m.next), depth, leaf);
  }

  /** The steps of the scan, by what they read. */
  lemma KeepMoves(s: string, at: Scan, depth: nat, leaf: Leaf)
    requires s != "" && depth <= MAX_DEPTH && Keeps(at, s[0])
    ensures var m := Next(s, at);
      m.length == 1 && m.next == Kept(at, s[0]) && FirstPiece(m.pieces, depth, leaf) == Accepted
  {
    hide Kept, Keeps;
  }

  lemma OperatorMoves(command: string, i: nat, at: Scan)
    requires i < |command| && !at.escaped && at.quote.Unquoted? && IsOperator(command[i])
    ensures var m := Next(Rest(command, i), at); var ch := command[i];
      && m.pieces == Flushed(at.cur) && m.next == START
      && m.length == if (ch == '&' || ch == '|') && i + 1 < |command| && command[i + 1] == ch then 2 else 1
  {
    hide Rest, GroupLength, ReadRedirection;
    RestNext(command, i);
  }

  lemma GroupMoves(command: string, i: nat, at: Scan, end: nat)
    requires i + 1 < |command| && !at.escaped && at.quote.Unquoted?
    requires IsRedirection(command[i]) && command[i + 1] == '('
    requires end == i + 2 + GroupLength(Rest(command, i + 2), 1)
    ensures var m := Next(Rest(command, i), at);
      && m.pieces == [Process(if end - 1 >= i + 2 then command[i + 2..end - 1] else "")]
      && m.length == end - i && m.next == at
  {
    hide Rest, GroupLength, GroupCloses, ReadRedirection;
    RestNext(command, i);
    RestNext(command, i + 1);
    GroupLengthBound(Rest(command, i + 2), 1);
    if end - 1 >= i + 2 { RestTakes(command, i + 2, 0, end - 1 - (i + 2)); }
  }

  lemma RedirectionMoves(command: string, i: nat, at: Scan)
    requires i < |command| && !at.escaped && at.quote.Unquoted? && IsRedirection(command[i])
    requires !(i + 1 < |command| && command[i + 1] == '(')
    ensures var m, r := Next(Rest(command, i), at), ReadRedirection(Rest(command, i + 1), command[i] == '<');
      m.pieces == r.pieces && m.length == 1 + r.length && m.next == at
  {
    hide Rest, GroupLength, GroupCloses, ReadRedirection;
    RestNext(command, i);
  }

  method Flush(cur: string, depth: nat, leaf: Leaf) returns (v: Verdict)
    requires depth <= MAX_DEPTH
    ensures v == FirstPiece(Flushed(cur), depth, leaf)
    decreases 8 - depth, 2
  {
    var segment := Trim(cur);
    if segment == "" {
      return Accepted;
    }
    FirstPieceStep([Segment(segment)], [], depth, leaf);
    v := ClassifySegment(segment, depth, leaf);
  }

  /** Handles the operator at `i`: the verdict on the piece it completes, its last index, and the scan after it. */
  method ClassifyOperator(command: string, i: nat, at: Scan, depth: nat, leaf: Leaf)
    returns (v: Verdict, last: nat, next: Scan)
    requires i < |command| && !at.escaped && at.quote.Unquoted? && depth <= MAX_DEPTH
    requires IsOperator(command[i]) || IsRedirection(command[i])
    ensures v == FirstPiece(Next(Rest(command, i), at).pieces, depth, leaf)
    ensures v.Accepted? ==> last + 1 == i + Next(Rest(command, i), at).length && next == Next(Rest(command, i), at).next
    decreases 8 - depth, 3
  {
    hide Next, FirstPiece, PieceVerdict, Flushed, ReadRedirection, GroupLength, LineVerdict, Rest;
    var ch := command[i];
    last, next := i, at;
    if (ch == '&' || ch == '|') && i + 1 < |command| && command[i + 1] == ch {
      OperatorMoves(command, i, at);
      v := Flush(at.cur, depth, leaf);
      next, last := START, i + 1;
    } else if IsOperator(ch) {
      OperatorMoves(command, i, at);
      v := Flush(at.cur, depth, leaf);
      next := START;
    } else if i + 1 < |command| && command[i + 1] == '(' {
      var end := SkipGroup(command, i + 2);
      GroupMoves(command, i, at, end);
      var inner := if end - 1 >= i + 2 then command[i + 2..end - 1] else "";
      ProcessVerdict(inner, depth, leaf);
      v := ClassifyCommandLine(inner, depth + 1, leaf);
      if v.Blocked? { v := Blocked(InProcess(v.reason)); }
      last := end - 1;
    } else {
      RedirectionMoves(command, i, at);
      var end, pieces := ScanRedirection(command, i + 1, ch == '<');
      OutputVerdict(pieces, depth, leaf);
      v := if pieces != [] && pieces[0].target != NULL_DEVICE then Blocked(Writes(pieces[0].target)) else Accepted;
      last := end - 1;
    }
  }

  /** The verdict of one scan is that of splitting the line and checking its pieces in order. */
  method ClassifyCommandLine(command: string, depth: nat, leaf: Leaf) returns (v: Verdict)
    ensures v == LineVerdict(command, depth, leaf)
    decreases 8 - depth, 4
  {
    hide Next, Pieces, FirstPiece, PieceVerdict, Flushed, ReadRedirection, GroupLength, LineVerdict, Starts, Rest;
    if depth > MAX_DEPTH {
      DeepIsBlocked(command, depth, leaf);
      return Blocked(TooDeep);
    }
    var at := START;
    var i := 0;
    StartsWhole(command, depth, leaf);
    while i < |command|
      invariant 0 <= i <= |command|
      invariant FirstPiece(Pieces(Rest(command, i), at), depth, leaf) == LineVerdict(command, depth, leaf)
    {
      var ch := command[i];
      LineStep(command, i, at, depth, leaf);
      if Keeps(at, ch) { KeepMoves(Rest(command, i), at, depth, leaf); }
      if at.escaped {
        at := at.(cur := at.cur + [ch], escaped := false);
      } else if ch == '\\' && at.quote != Quoted('\'') {
        at := at.(cur := at.cur + [ch], escaped := true);
      } else if at.quote.Quoted? {
        at := at.(cur := at.cur + [ch], quote := if ch == at.quote.mark then Unquoted else at.quote);
      } else if IsQuote(ch) {
        at := at.(cur := at.cur + [ch], quote := Quoted(ch));
      } else if IsOperator(ch) || IsRedirection(ch) {
        v, i, at := ClassifyOperator(command, i, at, depth, leaf);
        if v.Blocked? { return; }
      } else {
        at := at.(cur := at.cur + [ch]);
      }
      i := i + 1;
    }
    EndsWith(Rest(command, i), at);
    v := Flush(at.cur, depth, leaf);
  }

  /** `ScanStep` at index `i` of the whole line. */
  lemma LineStep(command: string, i: nat, at: Scan, depth: nat, leaf: Leaf)
    requires i < |command| && depth <= MAX_DEPTH
    ensures var m := Next(Rest(command, i), at); var v := FirstPiece(m.pieces, depth, leaf);
      && i + m.length <= |command|
      && FirstPiece(Pieces(Rest(command, i), at), depth, leaf) ==
        if v.Accepted? then FirstPiece(Pieces(Rest(command, i + m.length), m.next), depth, leaf) else v
  {
    hide Next, Pieces, FirstPiece;
    var rest := Rest(command, i);
    ScanStep(rest, at, depth, leaf);
    NextLength(rest, at);
    RestDrops(command, i, Next(rest, at).length);
  }

  lemma NextLength(s: string, at: Scan)
    requires s != ""
    ensures 1 <= Next(s, at).length <= |s|
  {
  }

  lemma DeepIsBlocked(command: string, depth: nat, leaf: Leaf)
    requires depth > MAX_DEPTH
    ensures LineVerdict(command, depth, leaf) == Blocked(TooDeep)
  {
  }

  lemma StartsWhole(command: string, depth: nat, leaf: Leaf)
    requires depth <= MAX_DEPTH
    ensures LineVerdict(command, depth, leaf) == FirstPiece(Pieces(Rest(command, 0), START), depth, leaf)
  {
    assert command[0..] == command;
  }

  lemma EndsWith(s: string, at: Scan)
    requires s == ""
    ensures Pieces(s, at) == Flushed(at.cur)
  {
  }

  lemma ProcessVerdict(inner: string, depth: nat, leaf: Leaf)
    requires depth <= MAX_DEPTH
    ensures FirstPiece([Process(inner)], depth, leaf) ==
      if LineVerdict(inner, depth + 1, leaf).Accepted? then Accepted
      else Blocked(InProcess(LineVerdict(inner, depth + 1, leaf).reason))
  {
    hide LineVerdict;
    FirstPieceStep([Process(inner)], [], depth, leaf);
  }

  lemma OutputVerdict(ps: seq<Piece>, depth: nat, leaf: Leaf)
    requires depth <= MAX_DEPTH && |ps| <= 1 && forall i | 0 <= i < |ps| :: ps[i].Output?
    ensures FirstPiece(ps, depth, leaf) ==
      if ps == [] || ps[0].target == NULL_DEVICE then Accepted else Blocked(Writes(ps[0].target))
  {
    FirstPieceStep(ps, [], depth, leaf);
  }
}
