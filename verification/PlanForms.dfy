/** Redirections, process substitutions and nested command lines as they are written, and what they are checked for. */
module PlanForms {
  import opened PlanSyntax
  import opened PlanVerdicts
  import opened PlanSplitting

  // ---- Words and groups ----

  /** A character of a bare redirection target: no white space, operator, parenthesis, redirection or quote. */
  predicate TargetChar(c: char) { !IsSpace(c) && c !in ";|&()<>\"'" }

  predicate IsWord(w: string) { forall i | 0 <= i < |w| :: TargetChar(w[i]) }

  /** What follows cannot be part of a bare word. */
  predicate EndsWord(t: string) { t == "" || IsSpace(t[0]) || t[0] in ";|&()<>" }

  predicate Blanks(s: string) { forall i | 0 <= i < |s| :: IsSpace(s[i]) }

  predicate Outside(at: Scan) { at.quote.Unquoted? && !at.escaped }

  lemma NoQuoteIsSpace()
    ensures !IsSpace('"') && !IsSpace('\'') && !IsSpace('>') && !IsSpace('<') && !IsSpace('&')
  {
  }

  lemma {:induction false} ReadsWord(w: string, t: string)
    requires IsWord(w) && EndsWord(t)
    ensures ReadTarget(w + t, Unquoted) == Target(w, |w|, false)
    decreases |w|
  {
    hide IsSpace;
    assert !IsSpace('"') && !IsSpace('\'') by { NoQuoteIsSpace(); }
    if w == "" {
      assert w + t == t;
    } else {
      assert (w + t)[1..] == w[1..] + t && w == [w[0]] + w[1..];
      ReadsWord(w[1..], t);
    }
  }

  lemma {:induction false} ReadsQuoted(w: string, mark: char, t: string)
    requires mark == '"' || mark == '\''
    requires mark !in w && EndsWord(t)
    ensures ReadTarget(w + [mark] + t, Quoted(mark)) == Target(w, |w| + 1, false)
    decreases |w|
  {
    hide IsSpace;
    var s := w + [mark] + t;
    if w == "" {
      assert s[1..] == t && s[0] == mark;
      ReadsWord("", t);
      assert "" + t == t;
    } else {
      assert s[1..] == w[1..] + [mark] + t && w == [w[0]] + w[1..];
      ReadsQuoted(w[1..], mark, t);
    }
  }

  lemma {:induction false} SkipsBlanks(blanks: string, t: string)
    requires Blanks(blanks) && t != "" && !IsSpace(t[0])
    ensures Run(blanks + t, IsSpace) == |blanks|
    decreases |blanks|
  {
    if blanks == "" {
      assert blanks + t == t;
    } else {
      assert (blanks + t)[1..] == blanks[1..] + t;
      SkipsBlanks(blanks[1..], t);
    }
  }

  // ---- Redirections ----

  lemma {:induction false} RedirectionNext(s: string, at: Scan)
    requires s != "" && Outside(at) && (s[0] == '<' || s[0] == '>') && !Starts(s[1..], '(')
    ensures var r := ReadRedirection(s[1..], s[0] == '<');
      Pieces(s, at) == r.pieces + Pieces(s[1 + r.length..], at)
  {
    hide ReadRedirection;
  }

  lemma {:induction false} SkipsTo(append: bool, blanks: string, rest: string)
    requires Blanks(blanks) && rest != "" && !IsSpace(rest[0]) && rest[0] != '>'
    ensures var s := (if append then ">" else "") + (blanks + rest);
      && Skip(s) == (if append then 1 else 0) + |blanks| && s[Skip(s)..] == rest
      && (s[0] == '(' ==> !append && blanks == "" && rest[0] == '(')
  {
    var a := if append then ">" else "";
    var s := a + (blanks + rest);
    NoQuoteIsSpace();
    assert !IsSpace('(');
    hide IsSpace;
    assert Starts(s, '>') <==> append;
    assert s[|a|..] == blanks + rest && s[|a| + |blanks|..] == rest;
    SkipsBlanks(blanks, rest);
  }

  /** What `>`, `>>` and `<` are followed by: a bare word or a quoted one. */
  predicate IsTarget(spelled: string, w: string) {
    || (spelled == w && w != "" && IsWord(w))
    || (spelled == "'" + w + "'" && '\'' !in w)
    || (spelled == "\"" + w + "\"" && '"' !in w)
  }

  lemma {:induction false} ReadsTarget(spelled: string, w: string, t: string)
    requires IsTarget(spelled, w) && EndsWord(t)
    ensures ReadTarget(spelled + t, Unquoted) == Target(w, |spelled|, false)
    ensures spelled != "" && !IsSpace(spelled[0]) && spelled[0] !in "&<>("
  {
    NoQuoteIsSpace();
    hide IsSpace;
    if spelled == w && w != "" && IsWord(w) {
      ReadsWord(w, t);
      assert TargetChar(w[0]);
    } else {
      var mark := spelled[0];
      ReadsQuoted(w, mark, t);
      assert (spelled + t)[1..] == w + [mark] + t;
    }
  }

  /** An output redirection, to a bare or a quoted target and with or without white space, is checked for its target and
      nothing else; an input redirection is not checked. */
  lemma {:induction false} RedirectionChecksTarget(
    append: bool, blanks: string, spelled: string, w: string, t: string, at: Scan)
    requires Outside(at) && Blanks(blanks) && IsTarget(spelled, w) && EndsWord(t)
    ensures Pieces(">" + ((if append then ">" else "") + (blanks + (spelled + t))), at) == [Output(w)] + Pieces(t, at)
    ensures Pieces("<" + ((if append then ">" else "") + (blanks + (spelled + t))), at) == Pieces(t, at)
  {
    TargetRead(append, blanks, spelled, w, t);
    var rest := (if append then ">" else "") + (blanks + (spelled + t));
    var n := |rest| - |t|;
    hide ReadRedirection, IsTarget, Pieces;
    assert rest[n..] == t;
    RedirectionIs(rest, at, '>', [Output(w)], n);
    RedirectionIs(rest, at, '<', [], n);
    assert [] + Pieces(t, at) == Pieces(t, at);
  }

  lemma {:induction false} TargetRead(append: bool, blanks: string, spelled: string, w: string, t: string)
    requires Blanks(blanks) && IsTarget(spelled, w) && EndsWord(t)
    ensures var rest := (if append then ">" else "") + (blanks + (spelled + t));
      && ReadRedirection(rest, false) == Redirection([Output(w)], |rest| - |t|, false)
      && ReadRedirection(rest, true) == Redirection([], |rest| - |t|, false)
      && !Starts(rest, '(')
  {
    ReadsTarget(spelled, w, t);
    SkipsTo(append, blanks, spelled + t);
    hide IsSpace, Skip, ReadTarget, IsTarget;
    assert (spelled + t)[0] == spelled[0];
  }

  lemma {:induction false} RedirectionIs(rest: string, at: Scan, ch: char, checked: seq<Piece>, n: nat)
    requires Outside(at) && (ch == '<' || ch == '>') && !Starts(rest, '(') && n <= |rest|
    requires ReadRedirection(rest, ch == '<').pieces == checked && ReadRedirection(rest, ch == '<').length == n
    ensures Pieces([ch] + rest, at) == checked + Pieces(rest[n..], at)
  {
    hide Pieces;
    var s := [ch] + rest;
    assert s[1..] == rest && s[1 + n..] == rest[n..];
    RedirectionNext(s, at);
  }

  /** Duplicating a descriptor is not checked. */
  lemma {:induction false} DuplicationIsNotChecked(ch: char, blanks: string, digits: string, t: string, at: Scan)
    requires Outside(at) && (ch == '<' || ch == '>') && Blanks(blanks) && AllDigits(digits)
    requires t == "" || !('0' <= t[0] <= '9')
    ensures Pieces([ch] + (blanks + ("&" + (digits + t))), at) == Pieces(t, at)
  {
    hide *;
    var rest := blanks + ("&" + (digits + t));
    var n := |rest| - |t|;
    DuplicationRead(blanks, digits, t, ch == '<');
    assert rest[n..] == t;
    RedirectionIs(rest, at, ch, [], n);
    assert [] + Pieces(t, at) == Pieces(t, at);
  }

  predicate AllDigits(s: string) { forall i | 0 <= i < |s| :: '0' <= s[i] <= '9' }

  lemma {:induction false} DuplicationRead(blanks: string, digits: string, t: string, isInput: bool)
    requires Blanks(blanks) && AllDigits(digits) && (t == "" || !('0' <= t[0] <= '9'))
    ensures var rest := blanks + ("&" + (digits + t));
      ReadRedirection(rest, isInput) == Redirection([], |rest| - |t|, false) && !Starts(rest, '(')
  {
    NoQuoteIsSpace();
    SkipsTo(false, blanks, "&" + (digits + t));
    ReadsDigits(digits, t);
    hide IsSpace, Skip, Run;
    var rest := blanks + ("&" + (digits + t));
    assert "" + rest == rest && ("&" + (digits + t))[1..] == digits + t;
  }

  /** Nor is what marks a here-document. */
  lemma {:induction false} HereMarkerIsNotChecked(blanks: string, t: string, at: Scan)
    requires Outside(at) && Blanks(blanks)
    ensures Pieces("<" + (blanks + ("<" + t)), at) == Pieces(t, at)
  {
    NoQuoteIsSpace();
    SkipsTo(false, blanks, "<" + t);
    var rest := blanks + ("<" + t);
    assert "" + rest == rest && rest[|blanks| + 1..] == t;
    hide IsSpace, Skip, Run, Pieces;
    RedirectionIs(rest, at, '<', [], |blanks| + 1);
    assert [] + Pieces(t, at) == Pieces(t, at);
  }

  lemma {:induction false} ReadsDigits(digits: string, t: string)
    requires AllDigits(digits) && (t == "" || !('0' <= t[0] <= '9'))
    ensures Run(digits + t, IsDigit) == |digits|
    decreases |digits|
  {
    if digits == "" {
      assert digits + t == t;
    } else {
      assert (digits + t)[1..] == digits[1..] + t;
      ReadsDigits(digits[1..], t);
    }
  }

  // ---- Nested lines ----

  /** How many groups `s` opens and does not close, or closes and did not open if negative. */
  function Level(s: string): int {
    if s == "" then 0
    else
      var n := |s| - 1;
      Level(s[..n]) + if s[n] == '(' then 1 else if s[n] == ')' then -1 else 0
  }

  /** Every prefix has opened what it closes, and the whole closes all. */
  ghost predicate IsGroup(s: string) { Level(s) == 0 && forall i | 0 <= i <= |s| :: Level(s[..i]) >= 0 }

  lemma {:induction false} GroupFrom(inner: string, i: nat, t: string)
    requires IsGroup(inner) && i <= |inner|
    ensures var s := inner[i..] + (")" + t);
      && GroupLength(s, (Level(inner[..i]) + 1) as nat) == |inner| - i + 1
      && GroupCloses(s, (Level(inner[..i]) + 1) as nat)
    decreases |inner| - i
  {
    var s := inner[i..] + (")" + t);
    var level := (Level(inner[..i]) + 1) as nat;
    if i == |inner| {
      assert inner[..i] == inner && inner[i..] == "" && s[0] == ')';
    } else {
      GroupFrom(inner, i + 1, t);
      assert inner[..i + 1][..i] == inner[..i] && inner[..i + 1][i] == inner[i];
      assert s[0] == inner[i] && s[1..] == inner[i + 1..] + (")" + t);
      assert LevelAfter(s[0], level) == (Level(inner[..i + 1]) + 1) as nat;
    }
  }

  lemma {:induction false} GroupReads(inner: string, t: string)
    requires IsGroup(inner)
    ensures GroupLength(inner + (")" + t), 1) == |inner| + 1 && GroupCloses(inner + (")" + t), 1)
    ensures Inner(inner + (")" + t), |inner| + 1) == inner
    ensures (inner + (")" + t))[|inner| + 1..] == t
  {
    assert inner[..0] == "" && inner[0..] == inner;
    GroupFrom(inner, 0, t);
  }

  /** A process substitution, of either direction, is the command line in its group. */
  lemma {:induction false} ProcessIsItsGroup(ch: char, inner: string, t: string, at: Scan)
    requires Outside(at) && (ch == '<' || ch == '>') && IsGroup(inner)
    ensures Pieces([ch] + ("(" + (inner + (")" + t))), at) == [Process(inner)] + Pieces(t, at)
  {
    GroupReads(inner, t);
    hide GroupLength, GroupCloses, Inner, Pieces;
    var g := inner + (")" + t);
    var s := [ch] + ("(" + g);
    assert s[1..] == "(" + g && s[1..][1..] == g;
    assert Next(s, at) == Move([Process(inner)], 2 + (|inner| + 1), at, false);
    hide Next, IsGroup;
    PiecesStep(s, at);
    assert s[2 + (|inner| + 1)..] == g[|inner| + 1..];
  }

  /** A command substitution of either spelling nests the line it holds; other characters nest nothing. */
  lemma {:induction false} SubstitutionIsItsGroup(inner: string, t: string)
    ensures IsGroup(inner) ==> Substitutions("$(" + (inner + (")" + t))) == [inner] + Substitutions(t)
    ensures '`' !in inner ==> Substitutions("`" + (inner + ("`" + t))) == [inner] + Substitutions(t)
  {
    if IsGroup(inner) {
      GroupReads(inner, t);
      hide GroupLength, GroupCloses, Inner;
      var g := inner + (")" + t);
      var s := "$(" + g;
      assert s[1..][0] == '(' && s[2..] == g && s[2 + (|inner| + 1)..] == g[|inner| + 1..];
    }
    if '`' !in inner {
      var g := inner + ("`" + t);
      var s := "`" + g;
      ReadsPlain(inner, "`" + t);
      assert s[1..] == g && s[1..|inner| + 1] == inner && s[|inner| + 2..] == t;
    }
  }

  lemma {:induction false} ReadsPlain(w: string, t: string)
    requires '`' !in w && Starts(t, '`')
    ensures Run(w + t, IsPlain) == |w|
    decreases |w|
  {
    if w == "" {
      assert w + t == t;
    } else {
      assert (w + t)[1..] == w[1..] + t;
      ReadsPlain(w[1..], t);
    }
  }

  lemma {:induction false} OthersNestNothing(c: char, t: string)
    requires c != '`' && !(c == '$' && Starts(t, '('))
    ensures Substitutions([c] + t) == Substitutions(t)
  {
    assert ([c] + t)[1..] == t;
  }

  // ---- Verdicts ----

  /** What a caller is told: the command is accepted exactly when every command in it passes, at every level, every
      output goes to `/dev/null`, and no line is nested more than six levels deep. */
  lemma {:induction false} CommandAccepted(command: string, leaf: Leaf)
    ensures LineVerdict(command, 0, leaf).Accepted? <==> Sound(command, leaf) && NestsWithin(command, 6)
    ensures forall target :: PassesItself(Output(target), leaf) <==> target == "/dev/null"
  {
    hide LineVerdict, Sound, NestsWithin;
    AcceptedIff(command, 0, leaf);
  }

  /** Why a piece is blocked: for its target, for what blocks the line of a process substitution, or for the first of its
      nested lines that is blocked, and only then for its own command. */
  ghost predicate BlockedFor(p: Piece, depth: nat, leaf: Leaf, reason: Reason)
    requires depth <= MAX_DEPTH
  {
    match p
    case Output(target) => target != "/dev/null" && reason == Writes(target)
    case Process(inner) => reason.InProcess? && LineVerdict(inner, depth + 1, leaf) == Blocked(reason.reason)
    case Segment(t) => FirstIs(Substitutions(t), depth + 1, leaf, reason)
                       || (AllAccepted(Substitutions(t), depth + 1, leaf) && !leaf(t) && reason == Command(t))
  }

  ghost predicate AllAccepted(cs: seq<string>, depth: nat, leaf: Leaf) {
    forall i | 0 <= i < |cs| :: LineVerdict(cs[i], depth, leaf).Accepted?
  }

  ghost predicate FirstIs(cs: seq<string>, depth: nat, leaf: Leaf, reason: Reason) {
    exists i | 0 <= i < |cs| :: AllAccepted(cs[..i], depth, leaf) && LineVerdict(cs[i], depth, leaf) == Blocked(reason)
  }

  lemma {:induction false} FirstLineIs(cs: seq<string>, depth: nat, leaf: Leaf)
    requires depth <= MAX_DEPTH + 1
    ensures match FirstLine(cs, depth, leaf)
            case Accepted => AllAccepted(cs, depth, leaf)
            case Blocked(reason) => FirstIs(cs, depth, leaf, reason)
    decreases |cs|
  {
    hide LineVerdict;
    if cs != [] {
      var v := LineVerdict(cs[0], depth, leaf);
      if v.Accepted? {
        var rest := cs[1..];
        FirstLineIs(rest, depth, leaf);
        assert forall i | 0 < i < |cs| :: cs[i] == rest[i - 1];
        if FirstLine(cs, depth, leaf).Blocked? {
          var reason := FirstLine(cs, depth, leaf).reason;
          var i :| 0 <= i < |rest| && AllAccepted(rest[..i], depth, leaf) && LineVerdict(rest[i], depth, leaf) == Blocked(reason);
          assert cs[..i + 1] == [cs[0]] + rest[..i] && cs[i + 1] == rest[i];
        }
      } else {
        assert cs[..0] == [];
      }
    }
  }

  lemma {:induction false} PieceBlockedFor(p: Piece, depth: nat, leaf: Leaf)
    requires depth <= MAX_DEPTH && PieceVerdict(p, depth, leaf).Blocked?
    ensures BlockedFor(p, depth, leaf, PieceVerdict(p, depth, leaf).reason)
  {
    hide LineVerdict, FirstLine, Substitutions, AllAccepted, FirstIs;
    if p.Segment? { FirstLineIs(Substitutions(p.text), depth + 1, leaf); }
  }

  /** A line too deeply nested is blocked for that; otherwise the first of its pieces that is not accepted tells why. */
  lemma {:induction false} BlockedByFirst(c: string, depth: nat, leaf: Leaf)
    requires LineVerdict(c, depth, leaf).Blocked?
    ensures var reason := LineVerdict(c, depth, leaf).reason;
      if depth > 6 then reason == TooDeep
      else exists i | 0 <= i < |Pieces(c, START)| ::
        && BlockedFor(Pieces(c, START)[i], depth, leaf, reason)
        && forall j | 0 <= j < i :: PieceVerdict(Pieces(c, START)[j], depth, leaf).Accepted?
  {
    hide Pieces, FirstPiece, PieceVerdict, BlockedFor;
    if depth <= 6 {
      var ps := Pieces(c, START);
      var i := FirstBlocked(ps, depth, leaf);
      PieceBlockedFor(ps[i], depth, leaf);
    }
  }

  lemma {:induction false} FirstBlocked(ps: seq<Piece>, depth: nat, leaf: Leaf) returns (i: nat)
    requires depth <= MAX_DEPTH && FirstPiece(ps, depth, leaf).Blocked?
    ensures i < |ps| && FirstPiece(ps, depth, leaf) == PieceVerdict(ps[i], depth, leaf)
    ensures forall j | 0 <= j < i :: PieceVerdict(ps[j], depth, leaf).Accepted?
    decreases |ps|
  {
    if PieceVerdict(ps[0], depth, leaf).Blocked? {
      i := 0;
    } else {
      i := FirstBlocked(ps[1..], depth, leaf);
      i := i + 1;
    }
  }
}
