/** The plan-mode extension: which notices the model sees, and which tools are active, over whole sessions. */
module PlanMode {
  import opened Options

  datatype State = On | Off

  /** A notice carries the state its text announces, if any; `Other` is any other message. */
  datatype Message = Notice(state: Option<State>) | Other(id: nat)

  // ---- Filtering notices ----

  predicate Matching(m: Message, want: State) { m == Notice(Some(want)) }

  predicate Announces(ms: seq<Message>, want: State) {
    exists i | 0 <= i < |ms| :: Matching(ms[i], want)
  }

  /** The messages that are no notices, in order. */
  function Others(ms: seq<Message>): seq<Message> {
    if ms == [] then []
    else Others(ms[..|ms| - 1]) + (if ms[|ms| - 1].Notice? then [] else [ms[|ms| - 1]])
  }

  /** All but the notices, and of these the newest that matches. */
  function Filtered(ms: seq<Message>, want: State): seq<Message> {
    if ms == [] then []
    else
      var rest, m := ms[..|ms| - 1], ms[|ms| - 1];
      if Matching(m, want) then Others(rest) + [m]
      else if m.Notice? then Filtered(rest, want)
      else Filtered(rest, want) + [m]
  }

  function Notices(ms: seq<Message>): seq<Message> {
    if ms == [] then []
    else Notices(ms[..|ms| - 1]) + (if ms[|ms| - 1].Notice? then [ms[|ms| - 1]] else [])
  }

  /** What one more message adds. */
  lemma AppendOne(ms: seq<Message>, m: Message, want: State)
    ensures Others(ms + [m]) == (if m.Notice? then Others(ms) else Others(ms) + [m])
    ensures Notices(ms + [m]) == (if m.Notice? then Notices(ms) + [m] else Notices(ms))
    ensures Filtered(ms + [m], want) ==
            (if Matching(m, want) then Others(ms) + [m]
             else if m.Notice? then Filtered(ms, want) else Filtered(ms, want) + [m])
    ensures Announces(ms + [m], want) <==> Announces(ms, want) || Matching(m, want)
  {
    assert (ms + [m])[..|ms|] == ms;
    AnnouncesLast(ms, m, want);
  }

  lemma AnnouncesLast(ms: seq<Message>, m: Message, want: State)
    ensures Announces(ms + [m], want) <==> Announces(ms, want) || Matching(m, want)
  {
    if Announces(ms, want) {
      var i :| 0 <= i < |ms| && Matching(ms[i], want);
      assert Matching((ms + [m])[i], want);
    }
    if Matching(m, want) { assert Matching((ms + [m])[|ms|], want); }
  }

  lemma Nothing(want: State)
    ensures Others([]) == [] && Notices([]) == [] && Filtered([], want) == [] && !Announces([], want)
  {
  }

  lemma {:induction false} OthersHasNoNotice(ms: seq<Message>, want: State)
    ensures Notices(Others(ms)) == [] && Others(Others(ms)) == Others(ms)
    ensures Filtered(Others(ms), want) == Others(ms) && !Announces(Others(ms), want)
  {
    hide Others, Notices, Filtered, Announces;
    Nothing(want);
    if ms != [] {
      var rest, m := ms[..|ms| - 1], ms[|ms| - 1];
      assert ms == rest + [m];
      OthersHasNoNotice(rest, want);
      AppendOne(rest, m, want);
      assert Others(ms) == if m.Notice? then Others(rest) else Others(rest) + [m];
      AppendOne(Others(rest), m, want);
    }
  }

  /** Every other message stays, in order; the only notice left is one of the wanted state, if there was any. */
  lemma {:induction false} FilterKeeps(ms: seq<Message>, want: State)
    ensures Others(Filtered(ms, want)) == Others(ms)
    ensures Notices(Filtered(ms, want)) == if Announces(ms, want) then [Notice(Some(want))] else []
    ensures Announces(Filtered(ms, want), want) <==> Announces(ms, want)
  {
    hide Others, Notices, Filtered, Announces;
    Nothing(want);
    if ms != [] {
      var rest, m := ms[..|ms| - 1], ms[|ms| - 1];
      assert ms == rest + [m];
      FilterKeeps(rest, want);
      OthersHasNoNotice(rest, want);
      AppendOne(rest, m, want);
      AppendOne(Others(rest), m, want);
      AppendOne(Filtered(rest, want), m, want);
    }
  }

  /** Filtering twice is filtering once. */
  lemma {:induction false} FilterTwice(ms: seq<Message>, want: State)
    ensures Filtered(Filtered(ms, want), want) == Filtered(ms, want)
  {
    hide Others, Notices, Filtered, Announces;
    Nothing(want);
    if ms != [] {
      var rest, m := ms[..|ms| - 1], ms[|ms| - 1];
      assert ms == rest + [m];
      FilterTwice(rest, want);
      OthersHasNoNotice(rest, want);
      AppendOne(rest, m, want);
      AppendOne(Others(rest), m, want);
      AppendOne(Filtered(rest, want), m, want);
    }
  }

  /** The messages that are no notices, except the one at `newest`. */
  function Keeping(ms: seq<Message>, newest: nat): seq<Message> {
    if ms == [] then []
    else
      var n := |ms| - 1;
      Keeping(ms[..n], newest) + (if ms[n].Notice? && n != newest then [] else [ms[n]])
  }

  lemma KeepingOne(ms: seq<Message>, m: Message, newest: nat)
    ensures Keeping(ms + [m], newest) ==
      if m.Notice? && |ms| != newest then Keeping(ms, newest) else Keeping(ms, newest) + [m]
  {
    assert (ms + [m])[..|ms|] == ms;
  }

  lemma {:induction false} KeepingNone(ms: seq<Message>, newest: nat)
    requires newest >= |ms|
    ensures Keeping(ms, newest) == Others(ms)
  {
    if ms != [] { KeepingNone(ms[..|ms| - 1], newest); }
  }

  /** The notice the filter keeps is the newest that matches. */
  lemma {:induction false} NewestIsKept(ms: seq<Message>, want: State, newest: nat)
    requires newest < |ms| ==> Matching(ms[newest], want)
    requires forall j | newest < j < |ms| :: !Matching(ms[j], want)
    requires newest >= |ms| ==> forall j | 0 <= j < |ms| :: !Matching(ms[j], want)
    ensures Filtered(ms, want) == Keeping(ms, newest)
    decreases |ms|
  {
    if ms != [] {
      var rest, m := ms[..|ms| - 1], ms[|ms| - 1];
      assert ms == rest + [m];
      AppendOne(rest, m, want);
      KeepingOne(rest, m, newest);
      hide Others, Filtered, Keeping;
      if newest == |ms| - 1 {
        KeepingNone(rest, newest);
      } else {
        NewestIsKept(rest, want, newest);
      }
    } else {
      Nothing(want);
    }
  }

  /** Keeps the newest matching notice, found from the end, and counts the notices dropped. */
  method FilterPlanModeNotices(messages: seq<Message>, enabled: bool) returns (out: seq<Message>, removed: nat)
    ensures out == Filtered(messages, if enabled then On else Off)
    ensures removed + |out| == |messages|
  {
    var wanted := if enabled then On else Off;
    var newest := |messages|;
    var i := |messages|;
    while i > 0
      invariant 0 <= i <= |messages| && newest == |messages|
      invariant forall j | i <= j < |messages| :: !Matching(messages[j], wanted)
    {
      i := i - 1;
      if Matching(messages[i], wanted) {
        newest := i;
        break;
      }
    }
    out, removed := [], 0;
    hide Keeping, Filtered;
    KeepingStart(messages, newest);
    for k := 0 to |messages|
      invariant out == Keeping(messages[..k], newest)
      invariant removed + |out| == k
    {
      assert messages[..k + 1] == messages[..k] + [messages[k]];
      KeepingOne(messages[..k], messages[k], newest);
      if messages[k].Notice? && k != newest {
        removed := removed + 1;
      } else {
        out := out + [messages[k]];
      }
    }
    assert messages[..|messages|] == messages;
    NewestIsKept(messages, wanted, newest);
  }

  lemma KeepingStart(ms: seq<Message>, newest: nat)
    ensures Keeping(ms[..0], newest) == []
  {
  }

  // ---- The extension over a session ----

  type Tool = nat

  function Distinct(ts: seq<Tool>): (r: seq<Tool>)
    ensures forall t :: t in r <==> t in ts
    ensures forall i, j | 0 <= i < j < |r| :: r[i] != r[j]
  {
    if ts == [] then []
    else
      var r := Distinct(ts[..|ts| - 1]);
      if ts[|ts| - 1] in r then r else r + [ts[|ts| - 1]]
  }

  function Without(ts: seq<Tool>, out: set<Tool>): (r: seq<Tool>)
    ensures forall t :: t in r <==> t in ts && t !in out
  {
    if ts == [] then []
    else Without(ts[..|ts| - 1], out) + (if ts[|ts| - 1] in out then [] else [ts[|ts| - 1]])
  }

  class Extension {
    const readOnlyCore: seq<Tool>
    const writeTools: set<Tool>
    var enabled: bool
    var announced: Option<State>
    var toolsBeforePlanMode: Option<seq<Tool>>
    var activeTools: seq<Tool>

    /** The conversation, and whether the mode has stayed the same since its present turn began. */
    ghost var history: seq<Message>
    ghost var steady: bool

    ghost predicate Valid()
      reads this
    {
      && (announced.Some? ==> announced.value == Mode() && Announces(history, Mode()))
      && (steady ==> Announces(history, Mode()))
      && (forall t | t in readOnlyCore :: t !in writeTools)
      && (enabled <==> toolsBeforePlanMode.Some?)
    }

    function Mode(): State
      reads this`enabled
    {
      if enabled then On else Off
    }

    constructor (core: seq<Tool>, write: set<Tool>, tools: seq<Tool>)
      requires forall t | t in core :: t !in write
      ensures Valid() && !enabled && activeTools == tools && history == []
    {
      readOnlyCore, writeTools := core, write;
      enabled, announced, toolsBeforePlanMode, activeTools := false, None, None, tools;
      history, steady := [], false;
    }

    /** In plan mode the read-only tools and whatever else was active, but no write tool; outside, what was active. */
    method ApplyToolGate()
      requires forall t | t in readOnlyCore :: t !in writeTools
      modifies this`toolsBeforePlanMode, this`activeTools
      ensures enabled <==> toolsBeforePlanMode.Some?
      ensures enabled ==>
        && toolsBeforePlanMode.value == (if old(toolsBeforePlanMode).Some? then old(toolsBeforePlanMode).value
                                         else old(activeTools))
        && (forall t :: t in activeTools <==> t in readOnlyCore || (t in toolsBeforePlanMode.value && t !in writeTools))
        && (forall t | t in activeTools :: t !in writeTools)
      ensures !enabled ==>
        activeTools == if old(toolsBeforePlanMode).Some? then old(toolsBeforePlanMode).value else old(activeTools)
    {
      if enabled {
        if toolsBeforePlanMode.None? {
          toolsBeforePlanMode := Some(activeTools);
        }
        var kept := Without(toolsBeforePlanMode.value, writeTools);
        activeTools := Distinct(readOnlyCore + kept);
      } else if toolsBeforePlanMode.Some? {
        activeTools := toolsBeforePlanMode.value;
        toolsBeforePlanMode := None;
      }
    }

    method SetEnabled(next: bool)
      requires Valid()
      modifies this`enabled, this`announced, this`toolsBeforePlanMode, this`activeTools, this`steady
      ensures Valid() && enabled == next && history == old(history)
      ensures next == old(enabled) ==>
        announced == old(announced) && activeTools == old(activeTools) && steady == old(steady)
        && toolsBeforePlanMode == old(toolsBeforePlanMode)
      ensures next != old(enabled) ==> announced == None && !steady
      ensures next && !old(enabled) ==>
        toolsBeforePlanMode == Some(old(activeTools)) && forall t | t in activeTools :: t !in writeTools
      ensures !next && old(enabled) ==> Some(activeTools) == old(toolsBeforePlanMode)
    {
      if enabled == next {
        return;
      }
      enabled := next;
      announced := None;
      steady := false;
      ApplyToolGate();
    }

    /** Toggling plan mode on and off again gives back the tools that were active. */
    method ToggleTwice()
      requires Valid() && !enabled
      modifies this`enabled, this`announced, this`toolsBeforePlanMode, this`activeTools, this`steady
      ensures Valid() && !enabled && activeTools == old(activeTools)
    {
      SetEnabled(true);
      SetEnabled(false);
    }

    /** A session starts, resumes or reloads: its entries and history may be any. */
    method SessionStart(want: bool, resumed: seq<Message>)
      requires Valid()
      modifies this
      ensures Valid() && enabled == want && announced == None && history == resumed && !steady
    {
      enabled := want;
      announced := None;
      history, steady := resumed, false;
      ApplyToolGate();
    }

    /** The history grows by messages of others. */
    ghost method Grow(more: seq<Message>)
      requires Valid()
      modifies this`history
      ensures Valid() && history == old(history) + more
    {
      AnnouncesMore(history, more, Mode());
      history := history + more;
    }

    /** A turn begins: in plan mode always, outside once after a change, the mode is announced. */
    method BeforeAgentStart() returns (message: Option<Message>)
      requires Valid()
      modifies this`announced, this`history, this`steady
      ensures Valid() && steady && Announces(history, Mode())
      ensures history == old(history) + (if message.Some? then [message.value] else [])
      ensures message == if !enabled && old(announced) == Some(Off) then None else Some(Notice(Some(Mode())))
    {
      if !enabled && announced == Some(Off) {
        steady := true;
        return None;
      }
      announced := Some(Mode());
      message := Some(Notice(Some(Mode())));
      AnnouncesLast(history, message.value, Mode());
      history, steady := history + [message.value], true;
    }

    /** What an LLM call sees: the other messages in order; never a notice of the other mode; one of this mode exactly
        if any is left in the history, which is so whenever the mode has stayed the same since the turn began. */
    method OnContext(messages: seq<Message>) returns (seen: seq<Message>)
      requires Valid() && messages == history
      ensures seen == Filtered(history, Mode())
      ensures Others(seen) == Others(history)
      ensures Notices(seen) == [] <==> !Announces(history, Mode())
      ensures Notices(seen) != [] ==> Notices(seen) == [Notice(Some(Mode()))]
      ensures steady ==> Notices(seen) == [Notice(Some(Mode()))]
    {
      var removed;
      seen, removed := FilterPlanModeNotices(messages, enabled);
      FilterKeeps(history, Mode());
      if removed == 0 {
        NothingRemoved(history, Mode());
        seen := messages;
      }
    }

    /** A turn begins and the mode changes before its next LLM call: what that call sees has a notice of the new mode
        exactly if the history holds one from before. */
    method ChangeWithinTurn(messages: seq<Message>) returns (seen: seq<Message>)
      requires Valid() && messages == history
      modifies this
      ensures Valid() && enabled == !old(enabled) && !steady
      ensures Notices(seen) == [] <==> !Announces(messages, Mode())
    {
      var notice := BeforeAgentStart();
      SetEnabled(!enabled);
      assert messages + [] == messages;
      if notice.Some? { AnnouncesLast(messages, notice.value, Mode()); }
      seen := OnContext(messages + if notice.Some? then [notice.value] else []);
    }
  }

  /** Plan mode entered for the first time during a turn: the rest of that turn is not told of it. */
  method EnteredUnannounced(core: seq<Tool>, write: set<Tool>, tools: seq<Tool>)
    returns (extension: Extension, seen: seq<Message>)
    requires forall t | t in core :: t !in write
    ensures extension.Valid() && extension.enabled && Notices(seen) == []
  {
    extension := new Extension(core, write, tools);
    seen := extension.ChangeWithinTurn([]);
  }

  lemma {:induction false} NothingRemoved(ms: seq<Message>, want: State)
    ensures |Filtered(ms, want)| <= |ms| && |Others(ms)| <= |ms|
    ensures |Filtered(ms, want)| == |ms| ==> Filtered(ms, want) == ms
    ensures |Others(ms)| == |ms| ==> Others(ms) == ms
  {
    if ms != [] {
      NothingRemoved(ms[..|ms| - 1], want);
      assert ms == ms[..|ms| - 1] + [ms[|ms| - 1]];
    }
  }

  lemma AnnouncesMore(ms: seq<Message>, more: seq<Message>, want: State)
    ensures Announces(ms, want) ==> Announces(ms + more, want)
  {
    if Announces(ms, want) {
      var i :| 0 <= i < |ms| && Matching(ms[i], want);
      assert Matching((ms + more)[i], want);
    }
  }
}
