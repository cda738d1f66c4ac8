/** What plan mode accepts: the verdict on a line from the verdicts on its pieces, and what the depth bound does. */
module PlanVerdicts {
  import opened PlanSyntax

  datatype Reason = TooDeep | Command(segment: string) | InProcess(reason: Reason) | Writes(target: string)
  datatype Verdict = Accepted | Blocked(reason: Reason)

  const MAX_DEPTH := 6
  const NULL_DEVICE := "/dev/null"

  /** `leaf` is the verdict on a segment's own command. */
  type Leaf = string -> bool

  // ---- Split, then check ----

  function LineVerdict(c: string, depth: nat, leaf: Leaf): Verdict
    decreases 8 - depth, 3
  {
    if depth > MAX_DEPTH then Blocked(TooDeep) else FirstPiece(Pieces(c, START), depth, leaf)
  }

  /** The verdict of the first piece that is not accepted. */
  function FirstPiece(ps: seq<Piece>, depth: nat, leaf: Leaf): Verdict
    requires depth <= MAX_DEPTH
    decreases 8 - depth, 2, |ps|
  {
    if ps == [] then Accepted
    else
      var v := PieceVerdict(ps[0], depth, leaf);
      if v.Accepted? then FirstPiece(ps[1..], depth, leaf) else v
  }

  function PieceVerdict(p: Piece, depth: nat, leaf: Leaf): Verdict
    requires depth <= MAX_DEPTH
    decreases 8 - depth, 1
  {
    match p
    case Segment(t) =>
      var v := FirstLine(Substitutions(t), depth + 1, leaf);
      if v.Blocked? then v else if leaf(t) then Accepted else Blocked(Command(t))
    case Process(inner) =>
      var v := LineVerdict(inner, depth + 1, leaf);
      if v.Blocked? then Blocked(InProcess(v.reason)) else Accepted
    case Output(target) => if target == NULL_DEVICE then Accepted else Blocked(Writes(target))
  }

  function FirstLine(cs: seq<string>, depth: nat, leaf: Leaf): Verdict
    requires depth <= MAX_DEPTH + 1
    decreases 8 - depth, 4, |cs|
  {
    if cs == [] then Accepted
    else
      var v := LineVerdict(cs[0], depth, leaf);
      if v.Accepted? then FirstLine(cs[1..], depth, leaf) else v
  }

  // ---- The verdict without a depth bound ----

  /** Every segment's command passes, at every level, and every output goes to the null device. */
  ghost predicate Sound(c: string, leaf: Leaf)
    decreases |c|, 1
  {
    NestedAreShorter(c);
    forall i | 0 <= i < |Pieces(c, START)| :: PieceSound(Pieces(c, START)[i], |c|, leaf)
  }

  ghost predicate PieceSound(p: Piece, n: nat, leaf: Leaf)
    requires NestsShorter(p, n)
    decreases n, 0
  {
    PassesItself(p, leaf) && forall j | 0 <= j < |Nested(p)| :: Sound(Nested(p)[j], leaf)
  }

  predicate PassesItself(p: Piece, leaf: Leaf) {
    match p
    case Segment(t) => leaf(t)
    case Process(_) => true
    case Output(target) => target == NULL_DEVICE
  }

  /** No command line is nested more than `n` levels deep. */
  ghost predicate NestsWithin(c: string, n: nat)
    decreases n, 1
  {
    forall i | 0 <= i < |Pieces(c, START)| :: PieceNestsWithin(Pieces(c, START)[i], n)
  }

  ghost predicate PieceNestsWithin(p: Piece, n: nat)
    decreases n, 0
  {
    if n == 0 then Nested(p) == [] else forall j | 0 <= j < |Nested(p)| :: NestsWithin(Nested(p)[j], n - 1)
  }

  lemma {:induction false} FirstPieceAccepts(ps: seq<Piece>, depth: nat, leaf: Leaf)
    requires depth <= MAX_DEPTH
    ensures FirstPiece(ps, depth, leaf).Accepted? <==>
            forall i | 0 <= i < |ps| :: PieceVerdict(ps[i], depth, leaf).Accepted?
    decreases |ps|
  {
    if ps != [] {
      FirstPieceAccepts(ps[1..], depth, leaf);
      assert forall i | 0 < i < |ps| :: ps[i] == ps[1..][i - 1];
    }
  }

  lemma {:induction false} FirstLineAccepts(cs: seq<string>, depth: nat, leaf: Leaf)
    requires depth <= MAX_DEPTH + 1
    ensures FirstLine(cs, depth, leaf).Accepted? <==>
            forall i | 0 <= i < |cs| :: LineVerdict(cs[i], depth, leaf).Accepted?
    decreases |cs|
  {
    if cs != [] {
      FirstLineAccepts(cs[1..], depth, leaf);
      assert forall i | 0 < i < |cs| :: cs[i] == cs[1..][i - 1];
    }
  }

  /** A piece is accepted exactly when its own command or target passes and its nested lines are accepted below it. */
  lemma {:induction false} PieceAccepts(p: Piece, depth: nat, leaf: Leaf)
    requires depth <= MAX_DEPTH
    ensures PieceVerdict(p, depth, leaf).Accepted? <==>
      PassesItself(p, leaf) && forall j | 0 <= j < |Nested(p)| :: LineVerdict(Nested(p)[j], depth + 1, leaf).Accepted?
  {
    hide LineVerdict, FirstLine, Substitutions, Pieces;
    match p {
      case Segment(t) =>
        assert Nested(p) == Substitutions(t);
        FirstLineAccepts(Nested(p), depth + 1, leaf);
      case Process(inner) => assert |Nested(p)| == 1 && Nested(p)[0] == inner;
      case Output(_) => assert |Nested(p)| == 0;
    }
  }

  /** A line is accepted exactly when it is sound at every level and no deeper than the bound leaves room for. */
  lemma {:induction false} AcceptedIff(c: string, depth: nat, leaf: Leaf)
    ensures LineVerdict(c, depth, leaf).Accepted? <==>
            depth <= MAX_DEPTH && Sound(c, leaf) && NestsWithin(c, MAX_DEPTH - depth)
    decreases 8 - depth, 1
  {
    hide Pieces, FirstPiece, PieceVerdict, PieceSound, PieceNestsWithin;
    if depth <= MAX_DEPTH {
      var ps := Pieces(c, START);
      NestedAreShorter(c);
      FirstPieceAccepts(ps, depth, leaf);
      forall i | 0 <= i < |ps|
        ensures PieceVerdict(ps[i], depth, leaf).Accepted? <==>
          PieceSound(ps[i], |c|, leaf) && PieceNestsWithin(ps[i], MAX_DEPTH - depth)
      {
        PieceAcceptedIff(ps[i], |c|, depth, MAX_DEPTH - depth, leaf);
      }
    }
  }

  lemma PieceSoundIs(p: Piece, n: nat, leaf: Leaf)
    requires NestsShorter(p, n)
    ensures PieceSound(p, n, leaf) <==> PassesItself(p, leaf) && forall j | 0 <= j < |Nested(p)| :: Sound(Nested(p)[j], leaf)
  {
    hide PassesItself, Nested, Pieces;
  }

  lemma PieceNestsIs(p: Piece, n: nat)
    ensures PieceNestsWithin(p, n) <==>
            if n == 0 then Nested(p) == [] else forall j | 0 <= j < |Nested(p)| :: NestsWithin(Nested(p)[j], n - 1)
  {
    hide Nested, Pieces;
  }

  lemma {:induction false} PieceAcceptedIff(p: Piece, n: nat, depth: nat, levels: nat, leaf: Leaf)
    requires depth + levels == MAX_DEPTH && NestsShorter(p, n)
    ensures PieceVerdict(p, depth, leaf).Accepted? <==> PieceSound(p, n, leaf) && PieceNestsWithin(p, levels)
    decreases 8 - depth, 0
  {
    hide PieceVerdict, PassesItself, LineVerdict, Sound, NestsWithin, Nested, PieceSound, PieceNestsWithin;
    PieceAccepts(p, depth, leaf);
    PieceSoundIs(p, n, leaf);
    PieceNestsIs(p, levels);
    var cs := Nested(p);
    if PieceVerdict(p, depth, leaf).Accepted? {
      forall j | 0 <= j < |cs| ensures Sound(cs[j], leaf) && levels > 0 {
        AcceptedIff(cs[j], depth + 1, leaf);
      }
      assert levels == 0 ==> cs == [] by { if cs != [] { AcceptedIff(cs[0], depth + 1, leaf); } }
      forall j | 0 <= j < |cs| && levels > 0 ensures NestsWithin(cs[j], levels - 1) {
        AcceptedIff(cs[j], depth + 1, leaf);
      }
    } else if PieceSound(p, n, leaf) && PieceNestsWithin(p, levels) {
      forall j | 0 <= j < |cs| ensures LineVerdict(cs[j], depth + 1, leaf).Accepted? {
        assert Sound(cs[j], leaf) && NestsWithin(cs[j], levels - 1);
        AcceptedIff(cs[j], depth + 1, leaf);
      }
    }
  }

  lemma {:induction false} NestsDeeper(c: string, n: nat, m: nat)
    requires NestsWithin(c, n) && n <= m
    ensures NestsWithin(c, m)
    decreases n
  {
    hide Pieces, Nested;
    var ps := Pieces(c, START);
    forall i | 0 <= i < |ps| ensures PieceNestsWithin(ps[i], m) {
      assert PieceNestsWithin(ps[i], n);
      PieceNestsIs(ps[i], n);
      PieceNestsIs(ps[i], m);
      if n > 0 {
        forall j | 0 <= j < |Nested(ps[i])| ensures NestsWithin(Nested(ps[i])[j], m - 1) {
          NestsDeeper(Nested(ps[i])[j], n - 1, m - 1);
        }
      }
    }
  }

  /** What is accepted at some depth is accepted at any smaller depth. */
  lemma {:induction false} ShallowerAccepts(c: string, depth: nat, shallower: nat, leaf: Leaf)
    requires LineVerdict(c, depth, leaf).Accepted? && shallower <= depth
    ensures LineVerdict(c, shallower, leaf).Accepted?
  {
    hide LineVerdict, Sound, NestsWithin;
    AcceptedIff(c, depth, leaf);
    AcceptedIff(c, shallower, leaf);
    NestsDeeper(c, MAX_DEPTH - depth, MAX_DEPTH - shallower);
  }
}
