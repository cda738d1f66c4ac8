/** What the message of a stream holds, told by the last events that decide it; and exactly which events do not fit. */
module ProxyMessages {
  import opened ProxyStream
  import opened Options

  // ---- How the message stopped ----

  /** No event from `k` on completes the stream. */
  predicate NoneCompletesFrom(es: seq<Event>, k: nat) { forall j | k <= j < |es| :: !Completes(es[j]) }

  predicate NoErrorFrom(es: seq<Event>, k: nat) { forall j | k <= j < |es| :: !es[j].Error? }

  lemma {:induction false} ApplyOneMore(m: Message, es: seq<Event>, w: Wire)
    requires es != [] && ApplyAll(m, es, w).Some?
    ensures var n := |es| - 1;
      && ApplyAll(m, es[..n], w).Some? && Apply(ApplyAll(m, es[..n], w).value, es[n], w).Some?
      && ApplyAll(m, es, w).value == Apply(ApplyAll(m, es[..n], w).value, es[n], w).value.message
  {
  }

  /** Stop reason and usage are those of the last event that completes the stream; without one the message is pending. */
  lemma {:induction false} StopIsLastCompletion(es: seq<Event>, k: nat, w: Wire)
    requires ApplyAll(BLANK, es, w).Some? && k <= |es| && NoneCompletesFrom(es, k)
    requires k > 0 ==> Completes(es[k - 1])
    ensures var m := ApplyAll(BLANK, es, w).value;
      if k == 0 then m.stop == Pending && m.usage == 0 else m.stop == es[k - 1].reason && m.usage == es[k - 1].usage
    decreases |es|
  {
    if es != [] {
      ApplyOneMore(BLANK, es, w);
      if k < |es| { StopIsLastCompletion(es[..|es| - 1], k, w); }
    }
  }

  /** The error message is that of the last error event. */
  lemma {:induction false} ErrorIsLastError(es: seq<Event>, k: nat, w: Wire)
    requires ApplyAll(BLANK, es, w).Some? && k <= |es| && NoErrorFrom(es, k)
    requires k > 0 ==> es[k - 1].Error?
    ensures ApplyAll(BLANK, es, w).value.error == if k == 0 then None else es[k - 1].message
    decreases |es|
  {
    if es != [] {
      ApplyOneMore(BLANK, es, w);
      if k < |es| { ErrorIsLastError(es[..|es| - 1], k, w); }
    }
  }

  // ---- What kind a block is ----

  /** `es[k - 1]` is the last start of block `i`; zero if it has none. */
  predicate LastStart(es: seq<Event>, k: nat, i: nat) {
    k <= |es| && (k > 0 ==> Starts(es[k - 1], i)) && forall j | k <= j < |es| :: !Starts(es[j], i)
  }

  lemma {:induction false} LastStartIs(es: seq<Event>, i: nat) returns (k: nat)
    ensures LastStart(es, k, i)
  {
    if es == [] {
      k := 0;
    } else if Starts(es[|es| - 1], i) {
      k := |es|;
    } else {
      k := LastStartIs(es[..|es| - 1], i);
    }
  }

  /** A block is what it was last started as. */
  lemma {:induction false} KindIsLastStart(es: seq<Event>, k: nat, i: nat, w: Wire)
    requires ApplyAll(BLANK, es, w).Some? && LastStart(es, k, i)
    ensures var m := ApplyAll(BLANK, es, w).value;
      && (m.IsText(i) <==> k > 0 && es[k - 1].TextStart?)
      && (m.IsThinking(i) <==> k > 0 && es[k - 1].ThinkingStart?)
      && (m.IsTool(i) <==> k > 0 && es[k - 1].ToolStart?)
    decreases |es|
  {
    if es != [] {
      ApplyOneMore(BLANK, es, w);
      if k < |es| { KindIsLastStart(es[..|es| - 1], k, i, w); }
    }
  }

  /** The event needs a block of its kind to go on, and block `e.index` was last started as something else, or never. */
  predicate Misfits(es: seq<Event>, k: nat, e: Event) {
    && ((e.TextDelta? || e.TextEnd?) ==> !(k > 0 && k <= |es| && es[k - 1].TextStart?))
    && ((e.ThinkingDelta? || e.ThinkingEnd?) ==> !(k > 0 && k <= |es| && es[k - 1].ThinkingStart?))
    && (e.ToolDelta? ==> !(k > 0 && k <= |es| && es[k - 1].ToolStart?))
    && (e.TextDelta? || e.TextEnd? || e.ThinkingDelta? || e.ThinkingEnd? || e.ToolDelta?)
  }

  /** An event fails the stream exactly if it goes on with a block that is not of its kind. The end of a tool call does
      not, but for a block that is no tool call it is not passed on; every other event that fits is. */
  lemma {:induction false} FailsIffMisfits(es: seq<Event>, e: Event, k: nat, w: Wire)
    requires ApplyAll(BLANK, es, w).Some? && (Indexed(e) ==> LastStart(es, k, e.index))
    ensures ApplyAll(BLANK, es + [e], w).None? <==> Misfits(es, k, e)
    ensures !Misfits(es, k, e) ==>
      (Apply(ApplyAll(BLANK, es, w).value, e, w).value.passed <==> (e.ToolEnd? ==> k > 0 && es[k - 1].ToolStart?))
  {
    assert (es + [e])[..|es|] == es;
    if Indexed(e) { KindIsLastStart(es, k, e.index, w); }
  }

  predicate Indexed(e: Event) { !e.Start? && !e.Done? && !e.Error? }

  // ---- Signatures ----

  predicate SignsBlock(e: Event, i: nat) { (e.TextEnd? || e.ThinkingEnd?) && e.index == i }

  /** A text or thinking block has the signature of its last end since it was started, if any. */
  lemma {:induction false} SignatureIsLastEnd(es: seq<Event>, k: nat, s: nat, i: nat, w: Wire)
    requires ApplyAll(BLANK, es, w).Some? && k > 0 && LastStart(es, k, i) && !es[k - 1].ToolStart?
    requires k <= s <= |es| && (s > k ==> SignsBlock(es[s - 1], i)) && forall j | s <= j < |es| :: !SignsBlock(es[j], i)
    ensures var m := ApplyAll(BLANK, es, w).value;
      var signature := if s > k then es[s - 1].signature else None;
      && i in m.blocks
      && (es[k - 1].TextStart? ==> m.blocks[i].Text? && m.blocks[i].textSignature == signature)
      && (es[k - 1].ThinkingStart? ==> m.blocks[i].Thinking? && m.blocks[i].thinkingSignature == signature)
    decreases |es|
  {
    ApplyOneMore(BLANK, es, w);
    KindIsLastStart(es, k, i, w);
    if s < |es| && k < |es| {
      SignatureIsLastEnd(es[..|es| - 1], k, s, i, w);
    } else if k < |es| {
      KindIsLastStart(es[..|es| - 1], k, i, w);
    }
  }

  /** A fragment after the end of its call starts over from the text of a missing value. */
  lemma {:induction false} FragmentAfterEnd(es: seq<Event>, i: nat, call: ToolCall, delta: string, w: Wire)
    requires ApplyAll(BLANK, es, w).Some? && ApplyAll(BLANK, es, w).value.IsTool(i)
    ensures var m := ApplyAll(BLANK, es + [ToolEnd(i, call)] + [ToolDelta(i, delta)], w);
      && m.Some? && i in m.value.blocks
      && m.value.blocks[i] ==
           Tool(ToolCall(call.id, call.name, w.json("undefined" + delta)), Some("undefined" + delta))
  {
    EndReplacesCall(es, i, call, w);
    var ended := es + [ToolEnd(i, call)];
    assert (ended + [ToolDelta(i, delta)])[..|ended|] == ended;
  }

  // ---- When the stream fails ----

  /** A line fails after those before it: it does not parse, or its event does not fit. */
  predicate FailsAfter(lines: seq<string>, line: string, w: Wire) {
    var p := w.parse(line);
    p.Malformed? || (p.Holds? && ApplyAll(BLANK, EventsOf(lines, w) + [p.event], w).None?)
  }

  lemma {:induction false} OneMoreFails(lines: seq<string>, line: string, w: Wire)
    requires !TakeAll(NOTHING, lines, w).failed
    ensures TakeAll(NOTHING, lines + [line], w).failed <==> FailsAfter(lines, line, w)
  {
    MessageIsApplied(lines, w);
    assert (lines + [line])[..|lines|] == lines;
    var p := w.parse(line);
    if p.Holds? {
      var es := EventsOf(lines, w);
      assert (es + [p.event])[..|es|] == es;
    }
  }

  /** A stream fails exactly if one of its lines does, after lines that do not. */
  lemma {:induction false} FailsIff(lines: seq<string>, w: Wire)
    ensures TakeAll(NOTHING, lines, w).failed <==>
      exists k | 0 <= k < |lines| :: !TakeAll(NOTHING, lines[..k], w).failed && FailsAfter(lines[..k], lines[k], w)
  {
    hide FailsAfter;
    if lines != [] {
      var n := |lines| - 1;
      FailsIff(lines[..n], w);
      assert lines[..n] + [lines[n]] == lines;
      assert forall k | 0 <= k < n :: lines[..n][..k] == lines[..k] && lines[..n][k] == lines[k];
      if TakeAll(NOTHING, lines[..n], w).failed {
        assert TakeAll(NOTHING, lines, w).failed;
      } else {
        OneMoreFails(lines[..n], lines[n], w);
      }
    }
  }

  /** Consumers are passed every event that fits, but for the end of a tool call whose block is no tool call. */
  lemma {:induction false} PassedOn(lines: seq<string>, line: string, e: Event, k: nat, w: Wire)
    requires !TakeAll(NOTHING, lines, w).failed && w.parse(line) == Holds(e)
    requires Indexed(e) ==> LastStart(EventsOf(lines, w), k, e.index)
    ensures var o, es := TakeAll(NOTHING, lines + [line], w), EventsOf(lines, w);
      && (o.failed <==> Misfits(es, k, e))
      && o.passed == TakeAll(NOTHING, lines, w).passed
           + if Misfits(es, k, e) || (e.ToolEnd? && !(k > 0 && es[k - 1].ToolStart?)) then [] else [e]
  {
    hide Apply, Misfits;
    OneMoreFails(lines, line, w);
    MessageIsApplied(lines, w);
    assert (lines + [line])[..|lines|] == lines;
    FailsIffMisfits(EventsOf(lines, w), e, k, w);
  }
}
