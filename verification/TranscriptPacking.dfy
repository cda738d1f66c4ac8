/** Packing session transcripts into files of bounded size, greedily and with as few files as possible. */
module TranscriptPacking {

  const MAX_CHARS_PER_FILE := 100_000
  const SEPARATOR := "\n\n"

  type Transcript = t: string | t != "" witness "="
  type Group = g: seq<Transcript> | g != [] witness [['=']]

  // ---- What a file holds ----

  function Join(g: seq<Transcript>): string {
    if g == [] then "" else if |g| == 1 then g[0] else Join(g[..|g| - 1]) + SEPARATOR + g[|g| - 1]
  }

  /** The rule for a file: one transcript, whatever its size, or several within the limit. */
  predicate Fits(g: Group) {
    |g| == 1 || |Join(g)| <= MAX_CHARS_PER_FILE
  }

  function Flatten(gs: seq<Group>): seq<Transcript> {
    if gs == [] then [] else Flatten(gs[..|gs| - 1]) + gs[|gs| - 1]
  }

  /** A division of `ts`, in order, into files that obey the rule. */
  predicate IsSplit(gs: seq<Group>, ts: seq<Transcript>) {
    Flatten(gs) == ts && forall i | 0 <= i < |gs| :: Fits(gs[i])
  }

  // ---- The greedy division ----

  predicate Joins(g: Group, t: Transcript) {
    |Join(g)| + |t| + 2 <= MAX_CHARS_PER_FILE
  }

  function Packed(ts: seq<Transcript>): seq<Group> {
    if ts == [] then []
    else
      var n := |ts| - 1;
      var gs, t := Packed(ts[..n]), ts[n];
      if gs != [] && Joins(gs[|gs| - 1], t) then gs[..|gs| - 1] + [gs[|gs| - 1] + [t]] else gs + [[t]]
  }

  /** Whether the greedy division puts the last transcript into the file before it. */
  predicate Shares(ts: seq<Transcript>)
    requires ts != []
  {
    var gs := Packed(ts[..|ts| - 1]);
    gs != [] && Joins(gs[|gs| - 1], ts[|ts| - 1])
  }

  lemma PackedStep(ts: seq<Transcript>)
    requires ts != []
    ensures var gs, t := Packed(ts[..|ts| - 1]), ts[|ts| - 1];
      Packed(ts) == if Shares(ts) then gs[..|gs| - 1] + [gs[|gs| - 1] + [t]] else gs + [[t]]
    ensures Shares(ts) ==> Packed(ts[..|ts| - 1]) != []
    ensures |ts| == 1 ==> !Shares(ts)
  {
  }

  lemma JoinMore(g: Group, t: Transcript)
    ensures Join(g + [t]) == Join(g) + SEPARATOR + t
    ensures |Join(g + [t])| == |Join(g)| + |t| + 2 && Join(g) != ""
  {
    assert (g + [t])[..|g|] == g;
    JoinNotEmpty(g);
  }

  lemma {:induction false} JoinNotEmpty(g: Group)
    ensures Join(g) != "" && |Join(g)| >= |g[|g| - 1]|
  {
  }

  lemma FlattenMore(gs: seq<Group>, g: Group)
    ensures Flatten(gs + [g]) == Flatten(gs) + g
  {
    assert (gs + [g])[..|gs|] == gs;
  }

  /** The greedy files hold all transcripts in order and obey the rule; a file over the limit holds just one. */
  lemma {:induction false} PackedIsSplit(ts: seq<Transcript>)
    ensures IsSplit(Packed(ts), ts)
  {
    if ts != [] {
      hide Packed, IsSplit, Shares;
      PackedIsSplit(ts[..|ts| - 1]);
      PackedStep(ts);
      if Shares(ts) { SharedIsSplit(ts); } else { AloneIsSplit(ts); }
    }
  }

  lemma AloneIsSplit(ts: seq<Transcript>)
    requires ts != [] && IsSplit(Packed(ts[..|ts| - 1]), ts[..|ts| - 1])
    ensures IsSplit(Packed(ts[..|ts| - 1]) + [[ts[|ts| - 1]]], ts)
  {
    hide Packed;
    FlattenMore(Packed(ts[..|ts| - 1]), [ts[|ts| - 1]]);
    hide Flatten, Join;
    assert ts == ts[..|ts| - 1] + [ts[|ts| - 1]];
  }

  lemma SharedIsSplit(ts: seq<Transcript>)
    requires ts != [] && IsSplit(Packed(ts[..|ts| - 1]), ts[..|ts| - 1]) && Shares(ts)
    ensures var gs := Packed(ts[..|ts| - 1]);
      IsSplit(gs[..|gs| - 1] + [gs[|gs| - 1] + [ts[|ts| - 1]]], ts)
  {
    hide Packed, Flatten, Join;
    var gs, t := Packed(ts[..|ts| - 1]), ts[|ts| - 1];
    var m := |gs| - 1;
    JoinMore(gs[m], t);
    FlattenMore(gs[..m], gs[m]);
    assert gs[..m] + [gs[m]] == gs;
    FlattenMore(gs[..m], gs[m] + [t]);
    assert ts == ts[..|ts| - 1] + [t];
    assert Flatten(gs[..m]) + (gs[m] + [t]) == Flatten(gs[..m]) + gs[m] + [t];
  }

  // ---- No division needs fewer files ----

  /** A shorter run of transcripts up to the same end needs no more room. */
  lemma {:induction false} SuffixIsShorter(a: Group, b: Group)
    requires |a| <= |b| && b[|b| - |a|..] == a
    ensures |Join(a)| <= |Join(b)|
    decreases |a|
  {
    var x, y := a[..|a| - 1], b[..|b| - 1];
    assert a[|a| - 1] == b[|b| - 1];
    if |a| == 1 {
      JoinNotEmpty(b);
    } else {
      assert y[|y| - |x|..] == x;
      SuffixIsShorter(x, y);
    }
  }

  lemma LastOfSplit(gs: seq<Group>, ts: seq<Transcript>)
    requires Flatten(gs) == ts && gs != []
    ensures |gs[|gs| - 1]| <= |ts| && ts[|ts| - |gs[|gs| - 1]|..] == gs[|gs| - 1]
  {
  }

  /** The same division without the last transcript. */
  lemma WithoutLast(gs: seq<Group>, ts: seq<Transcript>) returns (fewer: seq<Group>)
    requires IsSplit(gs, ts) && ts != []
    ensures gs != [] && IsSplit(fewer, ts[..|ts| - 1])
    ensures var g := gs[|gs| - 1];
      if |g| == 1 then fewer == gs[..|gs| - 1]
      else |fewer| == |gs| && fewer[|gs| - 1] == g[..|g| - 1] && g == fewer[|gs| - 1] + [ts[|ts| - 1]]
  {
    NotEmptySplit(gs, ts);
    var m := |gs| - 1;
    var g := gs[m];
    var h, t := g[..|g| - 1], g[|g| - 1];
    assert g == h + [t] && gs == gs[..m] + [g];
    FlattenMore(gs[..m], g);
    InitOfSum(Flatten(gs[..m]), h, t, ts);
    hide Flatten, Join;
    if h == [] {
      fewer := gs[..m];
      assert Flatten(fewer) + h == Flatten(fewer);
    } else {
      fewer := gs[..m] + [h];
      FlattenMore(gs[..m], h);
      JoinMore(h, t);
    }
  }

  lemma InitOfSum(x: seq<Transcript>, h: seq<Transcript>, t: Transcript, ts: seq<Transcript>)
    requires ts == x + (h + [t])
    ensures ts[..|ts| - 1] == x + h && ts[|ts| - 1] == t
  {
  }

  /** Against any division that obeys the rule, the greedy one uses no more files; and where it uses as many,
      its last file is no longer. */
  lemma {:induction false} StaysAhead(ts: seq<Transcript>, other: seq<Group>)
    requires IsSplit(other, ts) && ts != []
    ensures Packed(ts) != [] && other != []
    ensures |Packed(ts)| <= |other|
    ensures |Packed(ts)| == |other| ==> |Packed(ts)[|Packed(ts)| - 1]| <= |other[|other| - 1]|
    decreases |ts|
  {
    hide Packed, IsSplit, Shares, Flatten;
    var before := ts[..|ts| - 1];
    var fewer := WithoutLast(other, ts);
    PackedStep(ts);
    if before == [] {
      PackedNone();
    } else {
      NotEmptySplit(fewer, before);
      StaysAhead(before, fewer);
      if |other[|other| - 1]| > 1 && |Packed(before)| == |other| { LastFits(ts, other, fewer); }
    }
  }

  lemma PackedNone()
    ensures Packed([]) == []
  {
  }

  /** The greedy last file is a suffix of the other division's without the last transcript, which so fits there too. */
  lemma LastFits(ts: seq<Transcript>, other: seq<Group>, fewer: seq<Group>)
    requires IsSplit(other, ts) && ts != [] && other != []
    requires |other[|other| - 1]| > 1 && |fewer| == |other|
    requires other[|other| - 1] == fewer[|fewer| - 1] + [ts[|ts| - 1]]
    requires IsSplit(fewer, ts[..|ts| - 1]) && Packed(ts[..|ts| - 1]) != []
    requires |Packed(ts[..|ts| - 1])[|Packed(ts[..|ts| - 1])| - 1]| <= |fewer[|fewer| - 1]|
    ensures Shares(ts)
  {
    hide Packed, Flatten, Join;
    var gs := Packed(ts[..|ts| - 1]);
    LastsNest(ts[..|ts| - 1], fewer);
    assert Fits(other[|other| - 1]);
    hide IsSplit;
    ThenItJoins(gs[|gs| - 1], fewer[|fewer| - 1], ts[|ts| - 1]);
  }

  lemma ThenItJoins(mine: Group, theirs: Group, t: Transcript)
    requires |mine| <= |theirs| && theirs[|theirs| - |mine|..] == mine && Fits(theirs + [t])
    ensures Joins(mine, t)
  {
    SuffixIsShorter(mine, theirs);
    JoinMore(theirs, t);
    hide Join;
  }

  lemma LastsNest(ts: seq<Transcript>, other: seq<Group>)
    requires IsSplit(other, ts) && other != [] && Packed(ts) != []
    requires |Packed(ts)[|Packed(ts)| - 1]| <= |other[|other| - 1]|
    ensures var a, b := Packed(ts)[|Packed(ts)| - 1], other[|other| - 1];
      b[|b| - |a|..] == a
  {
    PackedIsSplit(ts);
    LastOfSplit(other, ts);
    LastOfSplit(Packed(ts), ts);
    hide Packed, Flatten, Join;
  }

  lemma NotEmpty(gs: seq<Group>, ts: seq<Transcript>)
    requires Flatten(gs) == ts && ts != []
    ensures gs != []
  {
  }

  lemma NotEmptySplit(gs: seq<Group>, ts: seq<Transcript>)
    requires IsSplit(gs, ts) && ts != []
    ensures gs != []
  {
    NotEmpty(gs, ts);
  }

  /** No division of the transcripts that obeys the rule uses fewer files. */
  lemma {:induction false} FewestFiles(ts: seq<Transcript>, other: seq<Group>)
    requires IsSplit(other, ts)
    ensures |Packed(ts)| <= |other|
  {
    if ts != [] { StaysAhead(ts, other); }
  }

  // ---- The loop ----

  function Contents(gs: seq<Group>): seq<string> {
    seq(|gs|, i requires 0 <= i < |gs| => Join(gs[i]))
  }

  /** `files` are written and `current` is pending, unless empty: together, the files of `gs`. */
  predicate Holds(files: seq<string>, current: string, gs: seq<Group>) {
    if current == "" then
      files == Contents(gs) && (gs == [] || |Join(gs[|gs| - 1])| > MAX_CHARS_PER_FILE)
    else gs != [] && files == Contents(gs[..|gs| - 1]) && current == Join(gs[|gs| - 1])
  }

  lemma Written(files: seq<string>, current: string, gs: seq<Group>)
    requires Holds(files, current, gs)
    ensures Contents(gs) == if current == "" then files else files + [current]
  {
  }

  lemma HoldsAlone(files: seq<string>, current: string, gs: seq<Group>, t: Transcript)
    requires Holds(files, current, gs)
    ensures var all := if current == "" then files else files + [current];
      && Holds(all, t, gs + [[t]])
      && (|t| > MAX_CHARS_PER_FILE ==> Holds(all + [t], "", gs + [[t]]))
  {
    Written(files, current, gs);
    assert (gs + [[t]])[..|gs|] == gs;
    assert Contents(gs + [[t]]) == Contents(gs) + [t];
  }

  lemma HoldsShared(files: seq<string>, current: string, gs: seq<Group>, t: Transcript)
    requires Holds(files, current, gs) && current != ""
    ensures Holds(files, current + SEPARATOR + t, gs[..|gs| - 1] + [gs[|gs| - 1] + [t]])
  {
    JoinMore(gs[|gs| - 1], t);
    assert (gs[..|gs| - 1] + [gs[|gs| - 1] + [t]])[..|gs| - 1] == gs[..|gs| - 1];
    hide Join;
  }

  lemma SharesWhen(files: seq<string>, current: string, ts: seq<Transcript>)
    requires ts != [] && Holds(files, current, Packed(ts[..|ts| - 1]))
    ensures Shares(ts) <==> current != "" && |current| + |ts[|ts| - 1]| + 2 <= MAX_CHARS_PER_FILE
  {
    hide Packed, Join, Contents;
  }

  /** What adding `ts[i]` to the files of `ts[..i]` must come to. */
  lemma Adds(files: seq<string>, current: string, ts: seq<Transcript>, i: nat)
    requires i < |ts| && Holds(files, current, Packed(ts[..i]))
    ensures var t, after := ts[i], Packed(ts[..i + 1]);
      var all := if current == "" then files else files + [current];
      if current != "" && |current| + |t| + 2 <= MAX_CHARS_PER_FILE then Holds(files, current + SEPARATOR + t, after)
      else Holds(all, t, after) && (|t| > MAX_CHARS_PER_FILE ==> Holds(all + [t], "", after))
  {
    hide Packed, Holds, Shares, Join;
    var us, t := ts[..i + 1], ts[i];
    assert us[..i] == ts[..i] && us[i] == t;
    SharesWhen(files, current, us);
    PackedStep(us);
    HoldsAlone(files, current, Packed(us[..i]), t);
    if current != "" { HoldsShared(files, current, Packed(us[..i]), t); }
  }

  lemma NothingHeld(ts: seq<Transcript>)
    ensures Holds([], "", Packed(ts[..0]))
  {
  }

  lemma AppendFirst(t: string)
    ensures "" + "" + t == t
  {
  }

  /** The contents of the files written, in order: those of the greedy division. */
  method Pack(transcripts: seq<Transcript>) returns (outputFiles: seq<string>)
    ensures outputFiles == Contents(Packed(transcripts))
  {
    outputFiles := [];
    var currentContent := "";
    NothingHeld(transcripts);
    hide Packed, Holds, Contents, Shares, Join, SEPARATOR;
    for i := 0 to |transcripts|
      invariant Holds(outputFiles, currentContent, Packed(transcripts[..i]))
    {
      var transcript := transcripts[i];
      ghost var after := Packed(transcripts[..i + 1]);
      Adds(outputFiles, currentContent, transcripts, i);

      if |currentContent| > 0 && |currentContent| + |transcript| + 2 > MAX_CHARS_PER_FILE {
        outputFiles := outputFiles + [currentContent];
        currentContent := "";
      }

      if |transcript| > MAX_CHARS_PER_FILE {
        if |currentContent| > 0 {
          outputFiles := outputFiles + [currentContent];
          currentContent := "";
        }
        outputFiles := outputFiles + [transcript];
        assert Holds(outputFiles, currentContent, after);
        continue;
      }

      AppendFirst(transcript);
      currentContent := currentContent + (if currentContent != "" then SEPARATOR else "") + transcript;
      assert Holds(outputFiles, currentContent, after);
    }
    assert transcripts[..|transcripts|] == transcripts;
    Written(outputFiles, currentContent, Packed(transcripts));
    if |currentContent| > 0 {
      outputFiles := outputFiles + [currentContent];
    }
  }
}
