/**
 Decoding the proxy's event stream: lines out of arbitrarily cut chunks, the message built from the events, and
 what the consumers of the stream get.
 */
module ProxyStream {
  import opened Options

  // ---- Lines ----

  /** The complete lines of a text, without their line feeds. */
  function Lines(s: string): seq<string> {
    if s == "" then []
    else
      var ls, last := Lines(s[..|s| - 1]), Unfinished(s[..|s| - 1]);
      if s[|s| - 1] == '\n' then ls + [last] else ls
  }

  /** What follows the last line feed. */
  function Unfinished(s: string): string {
    if s == "" || s[|s| - 1] == '\n' then "" else Unfinished(s[..|s| - 1]) + [s[|s| - 1]]
  }

  /** Cutting a text anywhere gives the same lines, if the unfinished line is carried over. */
  lemma {:induction false} LinesOfCut(a: string, b: string)
    ensures Lines(a + b) == Lines(a) + Lines(Unfinished(a) + b)
    ensures Unfinished(a + b) == Unfinished(Unfinished(a) + b)
    decreases |b|
  {
    if b == "" {
      assert a + b == a && Unfinished(a) + b == Unfinished(a);
      UnfinishedHasNoLines(a);
    } else {
      var n := |b| - 1;
      var c := b[..n];
      LinesOfCut(a, c);
      assert (a + b)[..|a + b| - 1] == a + c && (a + b)[|a + b| - 1] == b[n];
      var u := Unfinished(a) + b;
      assert u[..|u| - 1] == Unfinished(a) + c && u[|u| - 1] == b[n];
    }
  }

  lemma {:induction false} UnfinishedHasNoLines(a: string)
    ensures Lines(Unfinished(a)) == [] && Unfinished(Unfinished(a)) == Unfinished(a)
  {
    if a != "" && a[|a| - 1] != '\n' {
      var n := |a| - 1;
      UnfinishedHasNoLines(a[..n]);
      assert Unfinished(a)[..|Unfinished(a)| - 1] == Unfinished(a[..n]);
    }
  }

  function Concat(chunks: seq<string>): string {
    if chunks == [] then "" else Concat(chunks[..|chunks| - 1]) + chunks[|chunks| - 1]
  }

  // ---- Events and the message they build ----

  /** JSON values are only compared; `0` stands for an empty object. */
  type Json = nat
  const NO_ARGUMENTS: Json := 0

  datatype ToolCall = ToolCall(id: string, name: string, arguments: Json)

  datatype StopReason = Pending | EndTurn | Length | ToolUse | Aborted | Failed

  datatype Event =
    | Start
    | TextStart(index: nat) | TextDelta(index: nat, delta: string) | TextEnd(index: nat, signature: Option<string>)
    | ThinkingStart(index: nat) | ThinkingDelta(index: nat, delta: string)
    | ThinkingEnd(index: nat, signature: Option<string>)
    | ToolStart(index: nat, id: string, name: string) | ToolDelta(index: nat, delta: string)
    | ToolEnd(index: nat, call: ToolCall)
    | Done(reason: StopReason, usage: nat)
    | Error(reason: StopReason, message: Option<string>, usage: nat)

  /** `partialJson` is gone once the call has ended. */
  datatype Block =
    | Text(text: string, textSignature: Option<string>)
    | Thinking(thinking: string, thinkingSignature: Option<string>)
    | Tool(call: ToolCall, partialJson: Option<string>)

  /** The partial message: its blocks by index (JavaScript arrays may have holes), how it stopped, and its usage. */
  datatype Message = Message(blocks: map<nat, Block>, stop: StopReason, error: Option<string>, usage: nat) {
    predicate IsText(i: nat) { i in blocks && blocks[i].Text? }
    predicate IsThinking(i: nat) { i in blocks && blocks[i].Thinking? }
    predicate IsTool(i: nat) { i in blocks && blocks[i].Tool? }
    function With(i: nat, b: Block): Message { this.(blocks := blocks[i := b]) }
  }

  /** What a line of the stream holds: nothing, an event, or text that does not parse. */
  datatype Parsed = Blank | Holds(event: Event) | Malformed

  /** How lines and unfinished JSON texts parse. */
  datatype Wire = Wire(parse: string -> Parsed, json: string -> Json)

  /** The fragments so far, with one more; after the call has ended they start over from the text of a missing value. */
  function MoreJson(partialJson: Option<string>, delta: string): string {
    (if partialJson.Some? then partialJson.value else "undefined") + delta
  }

  /** The message after an event, and whether an event is passed on; none if the event does not fit its block. */
  datatype Step = Step(message: Message, passed: bool)

  function Apply(m: Message, e: Event, w: Wire): Option<Step> {
    match e
    case Start => Some(Step(m, true))
    case TextStart(i) => Some(Step(m.With(i, Text("", None)), true))
    case TextDelta(i, d) =>
      if m.IsText(i) then Some(Step(m.With(i, m.blocks[i].(text := m.blocks[i].text + d)), true)) else None
    case TextEnd(i, signature) =>
      if m.IsText(i) then Some(Step(m.With(i, m.blocks[i].(textSignature := signature)), true)) else None
    case ThinkingStart(i) => Some(Step(m.With(i, Thinking("", None)), true))
    case ThinkingDelta(i, d) =>
      if m.IsThinking(i) then Some(Step(m.With(i, m.blocks[i].(thinking := m.blocks[i].thinking + d)), true)) else None
    case ThinkingEnd(i, signature) =>
      if m.IsThinking(i) then Some(Step(m.With(i, m.blocks[i].(thinkingSignature := signature)), true)) else None
    case ToolStart(i, id, name) => Some(Step(m.With(i, Tool(ToolCall(id, name, NO_ARGUMENTS), Some(""))), true))
    case ToolDelta(i, d) =>
      if m.IsTool(i) then
        var json := MoreJson(m.blocks[i].partialJson, d);
        Some(Step(m.With(i, Tool(m.blocks[i].call.(arguments := w.json(json)), Some(json))), true))
      else None
    case ToolEnd(i, call) => if m.IsTool(i) then Some(Step(m.With(i, Tool(call, None)), true)) else Some(Step(m, false))
    case Done(reason, usage) => Some(Step(m.(stop := reason, usage := usage), true))
    case Error(reason, message, usage) => Some(Step(m.(stop := reason, error := message, usage := usage), true))
  }

  /** What a stream has come to: its message, the events passed on, and whether it failed. */
  datatype Outcome = Outcome(message: Message, passed: seq<Event>, failed: bool)

  function Take(o: Outcome, line: string, w: Wire): Outcome {
    if o.failed then o
    else match w.parse(line)
      case Blank => o
      case Malformed => o.(failed := true)
      case Holds(e) =>
        match Apply(o.message, e, w)
        case None => o.(failed := true)
        case Some(s) => Outcome(s.message, if s.passed then o.passed + [e] else o.passed, false)
  }

  function TakeAll(o: Outcome, lines: seq<string>, w: Wire): Outcome {
    if lines == [] then o else Take(TakeAll(o, lines[..|lines| - 1], w), lines[|lines| - 1], w)
  }

  const BLANK := Message(map[], Pending, None, 0)
  const NOTHING := Outcome(BLANK, [], false)

  // ---- What consumers get ----

  /** An event that completes the stream. */
  predicate Completes(e: Event) { e.Done? || e.Error? }

  predicate Completed(es: seq<Event>) { es != [] && Completes(es[|es| - 1]) }

  /** Of the events pushed: those up to the first that completes the stream. */
  function Delivered(es: seq<Event>): seq<Event> {
    if es == [] then []
    else
      var d := Delivered(es[..|es| - 1]);
      if Completed(d) then d else d + [es[|es| - 1]]
  }

  /** Consumers get the events pushed until one completes the stream; the stream's result is known exactly if one does. */
  lemma {:induction false} DeliveredUntilCompleted(es: seq<Event>)
    ensures Delivered(es) <= es
    ensures forall i | 0 <= i < |Delivered(es)| - 1 :: !Completes(es[i])
    ensures Completed(Delivered(es)) <==> exists i | 0 <= i < |es| :: Completes(es[i])
    ensures !Completed(Delivered(es)) ==> Delivered(es) == es
  {
    if es != [] {
      var n := |es| - 1;
      DeliveredUntilCompleted(es[..n]);
      assert forall i | 0 <= i < n :: es[..n][i] == es[i];
      if Completed(Delivered(es[..n])) {
        var i :| 0 <= i < n && Completes(es[..n][i]);
        assert Completes(es[i]);
      } else if Completes(es[n]) {
        assert Delivered(es) == es;
      }
    }
  }

  lemma {:induction false} DeliverMore(es: seq<Event>, e: Event)
    ensures Delivered(es + [e]) == if Completed(Delivered(es)) then Delivered(es) else Delivered(es) + [e]
  {
    assert (es + [e])[..|es|] == es;
  }

  lemma {:induction false} TakeMore(o: Outcome, a: seq<string>, b: seq<string>, w: Wire)
    ensures TakeAll(o, a + b, w) == TakeAll(TakeAll(o, a, w), b, w)
    decreases |b|
  {
    if b == [] {
      assert a + b == a;
    } else {
      var n := |b| - 1;
      assert (a + b)[..|a + b| - 1] == a + b[..n];
      TakeMore(o, a, b[..n], w);
    }
  }

  lemma {:induction false} FailedStays(o: Outcome, lines: seq<string>, w: Wire)
    requires o.failed
    ensures TakeAll(o, lines, w) == o
  {
    if lines != [] { FailedStays(o, lines[..|lines| - 1], w); }
  }

  // ---- The decoder ----

  class Decoder {
    var buffer: string
    var partial: Message
    /** The stream handed to consumers: what was queued for them, and whether its result is known. The result is the
        partial message itself, as it is then and later. */
    var queue: seq<Event>
    var done: bool
    var resolved: bool
    /** History: every event pushed. */
    ghost var pushed: seq<Event>

    /** While the stream is open. */
    ghost predicate Open()
      reads this`queue, this`done, this`resolved, this`pushed
    {
      queue == Delivered(pushed) && done == resolved == Completed(queue)
    }

    constructor ()
      ensures buffer == "" && partial == BLANK && pushed == [] && Open()
    {
      buffer, partial := "", BLANK;
      queue, done, resolved, pushed := [], false, false, [];
    }

    /** What comes after the event that completes the stream is dropped. */
    method Push(e: Event)
      requires Open()
      modifies this`queue, this`done, this`resolved, this`pushed
      ensures Open() && pushed == old(pushed) + [e]
    {
      DeliverMore(pushed, e);
      pushed := pushed + [e];
      if !done {
        if Completes(e) { done, resolved := true, true; }
        queue := queue + [e];
      }
    }

    /** The stream is over; its result, if it is not known by then, never will be. */
    method End()
      requires Open()
      modifies this`done
      ensures done
    {
      done := true;
    }

    /** Updates the partial message; false if the event does not fit its block. */
    method ProcessProxyEvent(e: Event, w: Wire) returns (ok: bool, push: bool)
      modifies this`partial
      ensures match Apply(old(partial), e, w)
              case None => !ok && partial == old(partial)
              case Some(s) => ok && partial == s.message && push == s.passed
    {
      ok, push := true, true;
      match e {
        case Start =>
        case TextStart(i) =>
          partial := partial.With(i, Text("", None));
        case TextDelta(i, d) =>
          ok := partial.IsText(i);
          if ok { partial := partial.With(i, partial.blocks[i].(text := partial.blocks[i].text + d)); }
        case TextEnd(i, signature) =>
          ok := partial.IsText(i);
          if ok { partial := partial.With(i, partial.blocks[i].(textSignature := signature)); }
        case ThinkingStart(i) =>
          partial := partial.With(i, Thinking("", None));
        case ThinkingDelta(i, d) =>
          ok := partial.IsThinking(i);
          if ok { partial := partial.With(i, partial.blocks[i].(thinking := partial.blocks[i].thinking + d)); }
        case ThinkingEnd(i, signature) =>
          ok := partial.IsThinking(i);
          if ok { partial := partial.With(i, partial.blocks[i].(thinkingSignature := signature)); }
        case ToolStart(i, id, name) =>
          partial := partial.With(i, Tool(ToolCall(id, name, NO_ARGUMENTS), Some("")));
        case ToolDelta(i, d) =>
          ok := partial.IsTool(i);
          if ok {
            var json := MoreJson(partial.blocks[i].partialJson, d);
            partial := partial.With(i, Tool(partial.blocks[i].call.(arguments := w.json(json)), Some(json)));
          }
        case ToolEnd(i, call) =>
          push := partial.IsTool(i);
          if push { partial := partial.With(i, Tool(call, None)); }
        case Done(reason, usage) =>
          partial := partial.(stop := reason, usage := usage);
        case Error(reason, message, usage) =>
          partial := partial.(stop := reason, error := message, usage := usage);
      }
    }

    /** The lines of the buffer; the unfinished one stays in it. */
    method SplitBuffer() returns (lines: seq<string>)
      modifies this`buffer
      ensures lines == Lines(old(buffer)) && buffer == Unfinished(old(buffer))
    {
      lines := [];
      var line := "";
      for k := 0 to |buffer|
        invariant lines == Lines(buffer[..k]) && line == Unfinished(buffer[..k])
      {
        assert buffer[..k + 1][..k] == buffer[..k];
        if buffer[k] == '\n' {
          lines, line := lines + [line], "";
        } else {
          line := line + [buffer[k]];
        }
      }
      assert buffer[..|buffer|] == buffer;
      buffer := line;
    }

    /** Handles one line; false if it fails. */
    method ProcessLine(line: string, w: Wire) returns (ok: bool)
      requires Open()
      modifies this`partial, this`queue, this`done, this`resolved, this`pushed
      ensures Open()
      ensures Outcome(partial, pushed, !ok) == Take(Outcome(old(partial), old(pushed), false), line, w)
    {
      var p := w.parse(line);
      ok := !p.Malformed?;
      if p.Holds? {
        var push;
        ok, push := ProcessProxyEvent(p.event, w);
        if ok && push { Push(p.event); }
      }
    }

    /** Handles the lines of one chunk, until one fails. */
    method ProcessLines(lines: seq<string>, w: Wire) returns (ok: bool)
      requires Open()
      modifies this`partial, this`queue, this`done, this`resolved, this`pushed
      ensures Open()
      ensures Outcome(partial, pushed, !ok) == TakeAll(Outcome(old(partial), old(pushed), false), lines, w)
    {
      hide Take;
      ghost var before := Outcome(partial, pushed, false);
      for k := 0 to |lines|
        invariant Open()
        invariant Outcome(partial, pushed, false) == TakeAll(before, lines[..k], w)
      {
        assert lines[..k + 1][..k] == lines[..k];
        ghost var o := Take(Outcome(partial, pushed, false), lines[k], w);
        assert TakeAll(before, lines[..k + 1], w) == o;
        assert lines == lines[..k + 1] + lines[k + 1..];
        TakeMore(before, lines[..k + 1], lines[k + 1..], w);
        ok := ProcessLine(lines[k], w);
        if !ok {
          FailedStays(o, lines[k + 1..], w);
          return;
        }
      }
      assert lines[..|lines|] == lines;
      ok := true;
    }

    /** Reads the chunks, until a line fails. Whatever way the text is cut into chunks, the outcome is that of its
        complete lines. */
    method ReadAll(chunks: seq<string>, w: Wire) returns (ok: bool)
      requires buffer == "" && partial == BLANK && pushed == [] && Open()
      modifies this
      ensures Open()
      ensures Outcome(partial, pushed, !ok) == TakeAll(NOTHING, Lines(Concat(chunks)), w)
    {
      for k := 0 to |chunks|
        invariant Open()
        invariant buffer == Unfinished(Concat(chunks[..k]))
        invariant Outcome(partial, pushed, false) == TakeAll(NOTHING, Lines(Concat(chunks[..k])), w)
      {
        ghost var text := Concat(chunks[..k]);
        assert chunks[..k + 1][..k] == chunks[..k];
        LinesOfCut(text, chunks[k]);
        TakeMore(NOTHING, Lines(text), Lines(buffer + chunks[k]), w);
        buffer := buffer + chunks[k];
        var lines := SplitBuffer();
        ok := ProcessLines(lines, w);
        if !ok {
          FailureIsFinal(chunks, k + 1, w);
          return;
        }
      }
      assert chunks[..|chunks|] == chunks;
      ok := true;
    }

    /** The whole stream. `cut` says that reading fails, or the request is aborted, after these chunks; `reason` and
        `text` are how a failure is reported. */
    method StreamProxy(chunks: seq<string>, cut: bool, reason: StopReason, text: string, w: Wire)
      requires buffer == "" && partial == BLANK && pushed == [] && Open()
      modifies this
      ensures done && queue == Delivered(Pushes(chunks, cut, reason, text, w))
      ensures resolved <==> exists i | 0 <= i < |queue| :: Completes(queue[i])
      ensures var o := TakeAll(NOTHING, Lines(Concat(chunks)), w);
        partial == if o.failed || cut then o.message.(stop := reason, error := Some(text)) else o.message
    {
      var ok := ReadAll(chunks, w);
      if !ok || cut {
        partial := partial.(stop := reason, error := Some(text));
        Push(Error(reason, Some(text), partial.usage));
      }
      DeliveredUntilCompleted(pushed);
      End();
    }
  }

  lemma {:induction false} FailureIsFinal(chunks: seq<string>, k: nat, w: Wire)
    requires k <= |chunks| && TakeAll(NOTHING, Lines(Concat(chunks[..k])), w).failed
    ensures TakeAll(NOTHING, Lines(Concat(chunks)), w) == TakeAll(NOTHING, Lines(Concat(chunks[..k])), w)
    decreases |chunks| - k
  {
    if k == |chunks| {
      assert chunks[..k] == chunks;
    } else {
      var text := Concat(chunks[..k]);
      assert chunks[..k + 1][..k] == chunks[..k];
      LinesOfCut(text, chunks[k]);
      var more := Lines(Unfinished(text) + chunks[k]);
      TakeMore(NOTHING, Lines(text), more, w);
      FailedStays(TakeAll(NOTHING, Lines(text), w), more, w);
      FailureIsFinal(chunks, k + 1, w);
    }
  }

  /** Everything pushed: what the complete lines pass on, and an error if they fail or reading does. */
  function Pushes(chunks: seq<string>, cut: bool, reason: StopReason, text: string, w: Wire): seq<Event> {
    var o := TakeAll(NOTHING, Lines(Concat(chunks)), w);
    if o.failed || cut then o.passed + [Error(reason, Some(text), o.message.usage)] else o.passed
  }

  /** A stream gets its result exactly if it fails, or one of its complete lines holds an event that completes it. */
  lemma {:induction false} ResultIff(chunks: seq<string>, cut: bool, reason: StopReason, text: string, w: Wire)
    ensures var o := TakeAll(NOTHING, Lines(Concat(chunks)), w);
      Completed(Delivered(Pushes(chunks, cut, reason, text, w))) <==>
        o.failed || cut || exists i | 0 <= i < |o.passed| :: Completes(o.passed[i])
  {
    var o := TakeAll(NOTHING, Lines(Concat(chunks)), w);
    var es := Pushes(chunks, cut, reason, text, w);
    DeliveredUntilCompleted(es);
    if o.failed || cut {
      assert Completes(es[|o.passed|]);
    }
  }

  lemma {:induction false} NoLinesIsUnfinished(s: string)
    requires Lines(s) == []
    ensures Unfinished(s) == s
  {
    if s != "" {
      NoLinesIsUnfinished(s[..|s| - 1]);
      assert s == s[..|s| - 1] + [s[|s| - 1]];
    }
  }

  lemma OneLine(line: string)
    requires Lines(line) == []
    ensures Lines(line + "\n") == [line]
  {
    NoLinesIsUnfinished(line);
    assert (line + "\n")[..|line|] == line && (line + "\n")[|line|] == '\n';
  }

  lemma OneChunk(s: string)
    ensures Concat([s]) == s
  {
    assert [s][..0] == [] && "" + s == s;
  }

  lemma TakeOne(o: Outcome, line: string, w: Wire)
    ensures TakeAll(o, [line], w) == Take(o, line, w) && TakeAll(o, [], w) == o
  {
    assert [line][..0] == [];
  }

  /** A last line without a line feed is never handled, even if it is the one that completes the message: the stream
      ends, and its result stays unknown for ever. */
  lemma {:induction false} UnfinishedLineIsLost(line: string, e: Event, reason: StopReason, text: string, w: Wire)
    requires Lines(line) == [] && w.parse(line) == Holds(e) && Completes(e)
    ensures Pushes([line], false, reason, text, w) == []
    ensures Pushes([line + "\n"], false, reason, text, w) == [e]
  {
    hide Concat, Lines, TakeAll;
    OneChunk(line);
    OneChunk(line + "\n");
    OneLine(line);
    TakeOne(NOTHING, line, w);
  }

  // ---- Reconstruction ----

  function ApplyAll(m: Message, es: seq<Event>, w: Wire): Option<Message> {
    if es == [] then Some(m)
    else
      match ApplyAll(m, es[..|es| - 1], w)
      case None => None
      case Some(n) =>
        match Apply(n, es[|es| - 1], w)
        case None => None
        case Some(s) => Some(s.message)
  }

  function EventsOf(lines: seq<string>, w: Wire): seq<Event> {
    if lines == [] then []
    else
      var p := w.parse(lines[|lines| - 1]);
      EventsOf(lines[..|lines| - 1], w) + (if p.Holds? then [p.event] else [])
  }

  /** A stream that has not failed holds the message that its events build. */
  lemma {:induction false} MessageIsApplied(lines: seq<string>, w: Wire)
    requires !TakeAll(NOTHING, lines, w).failed
    ensures ApplyAll(BLANK, EventsOf(lines, w), w) == Some(TakeAll(NOTHING, lines, w).message)
  {
    hide Apply;
    if lines != [] {
      var rest := lines[..|lines| - 1];
      MessageIsApplied(rest, w);
      var p := w.parse(lines[|lines| - 1]);
      if p.Holds? {
        var es := EventsOf(rest, w) + [p.event];
        assert es[..|es| - 1] == EventsOf(rest, w);
      } else {
        assert EventsOf(lines, w) == EventsOf(rest, w);
      }
    }
  }

  predicate Starts(e: Event, i: nat) { (e.TextStart? || e.ThinkingStart? || e.ToolStart?) && e.index == i }

  predicate IsDelta(e: Event, i: nat) { (e.TextDelta? || e.ThinkingDelta? || e.ToolDelta?) && e.index == i }

  /** The deltas for block `i`, in order. */
  function Deltas(es: seq<Event>, i: nat): seq<string> {
    if es == [] then []
    else
      var e := es[|es| - 1];
      Deltas(es[..|es| - 1], i) + (if IsDelta(e, i) then [e.delta] else [])
  }

  /** What a block is after its start and the events since: the concatenation of its deltas, and for a tool call their
      parse, or what the end of the call brought. */
  predicate Built(b: Block, start: Event, ds: seq<string>, ended: bool, w: Wire) {
    match start
    case TextStart(_) => b.Text? && b.text == Concat(ds)
    case ThinkingStart(_) => b.Thinking? && b.thinking == Concat(ds)
    case ToolStart(_, id, name) =>
      && b.Tool?
      && (!ended ==>
        b == Tool(ToolCall(id, name, if ds == [] then NO_ARGUMENTS else w.json(Concat(ds))), Some(Concat(ds))))
    case _ => true
  }

  lemma {:induction false} ApplyBuilds(m: Message, e: Event, i: nat, start: Event, ds: seq<string>, ended: bool, w: Wire)
    requires i in m.blocks && Built(m.blocks[i], start, ds, ended, w) && Starts(start, i) && !Starts(e, i)
    requires Apply(m, e, w).Some?
    ensures var n := Apply(m, e, w).value.message;
      && i in n.blocks
      && Built(n.blocks[i], start, if IsDelta(e, i) then ds + [e.delta] else ds, ended || (e.ToolEnd? && e.index == i), w)
  {
    if IsDelta(e, i) { assert (ds + [e.delta])[..|ds|] == ds; }
  }

  predicate EndsCall(es: seq<Event>, i: nat) { exists j | 0 <= j < |es| :: es[j].ToolEnd? && es[j].index == i }

  /** A text or thinking block holds the concatenation of its deltas since its last start; a tool call that has not
      ended has the arguments their concatenation parses to. */
  lemma {:induction false} BlockIsItsDeltas(es: seq<Event>, k: nat, i: nat, w: Wire)
    requires k < |es| && Starts(es[k], i)
    requires forall j | k < j < |es| :: !Starts(es[j], i)
    requires ApplyAll(BLANK, es, w).Some?
    ensures var m := ApplyAll(BLANK, es, w).value;
      i in m.blocks && Built(m.blocks[i], es[k], Deltas(es[k + 1..], i), EndsCall(es[k + 1..], i), w)
    decreases |es|
  {
    hide Deltas, Concat, EndsCall;
    var n := |es| - 1;
    if k == n {
      assert es[k + 1..] == [];
      NoDeltas(i);
    } else {
      var e, since := es[n], es[..n][k + 1..];
      BlockIsItsDeltas(es[..n], k, i, w);
      assert es[k + 1..] == since + [e];
      OneMoreDelta(since, e, i);
      OneMoreEnd(since, e, i);
      hide Apply, Built;
      ApplyBuilds(ApplyAll(BLANK, es[..n], w).value, e, i, es[k], Deltas(since, i), EndsCall(since, i), w);
    }
  }

  lemma NoDeltas(i: nat)
    ensures Deltas([], i) == [] && Concat([]) == "" && !EndsCall([], i)
  {
  }

  lemma OneMoreDelta(es: seq<Event>, e: Event, i: nat)
    ensures Deltas(es + [e], i) == if IsDelta(e, i) then Deltas(es, i) + [e.delta] else Deltas(es, i)
  {
    assert (es + [e])[..|es|] == es;
  }

  lemma OneMoreEnd(es: seq<Event>, e: Event, i: nat)
    ensures EndsCall(es + [e], i) <==> EndsCall(es, i) || (e.ToolEnd? && e.index == i)
  {
    if EndsCall(es, i) {
      var j :| 0 <= j < |es| && es[j].ToolEnd? && es[j].index == i;
      assert (es + [e])[j] == es[j];
    }
    if e.ToolEnd? && e.index == i { assert (es + [e])[|es|] == e; }
  }

  /** The end of a call replaces whatever its fragments came to. */
  lemma {:induction false} EndReplacesCall(es: seq<Event>, i: nat, call: ToolCall, w: Wire)
    requires ApplyAll(BLANK, es, w).Some? && ApplyAll(BLANK, es, w).value.IsTool(i)
    ensures var m := ApplyAll(BLANK, es + [ToolEnd(i, call)], w);
      m.Some? && i in m.value.blocks && m.value.blocks[i] == Tool(call, None)
  {
    assert (es + [ToolEnd(i, call)])[..|es|] == es;
  }
}
