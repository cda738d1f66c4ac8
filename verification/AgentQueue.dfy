/** The queues of steering and follow-up messages. */
module AgentQueue {
  import opened AgentTypes

  datatype QueueMode = All | OneAtATime

  /** How a message left a queue: handed to the loop, or dropped by a clear. */
  datatype Removal = Removal(message: Message, delivered: bool)

  ghost function Gone(removals: seq<Removal>): seq<Message> {
    seq(|removals|, i requires 0 <= i < |removals| => removals[i].message)
  }

  ghost function DeliveredOf(removals: seq<Removal>): seq<Message> {
    if removals == [] then []
    else
      var n := |removals| - 1;
      DeliveredOf(removals[..n]) + if removals[n].delivered then [removals[n].message] else []
  }

  ghost function Tagged(messages: seq<Message>, delivered: bool): seq<Removal> {
    seq(|messages|, i requires 0 <= i < |messages| => Removal(messages[i], delivered))
  }

  lemma RemoveOne(removals: seq<Removal>, r: Removal)
    ensures Gone(removals + [r]) == Gone(removals) + [r.message]
    ensures DeliveredOf(removals + [r]) == if r.delivered then DeliveredOf(removals) + [r.message] else DeliveredOf(removals)
  {
    assert (removals + [r])[..|removals|] == removals;
  }

  lemma TaggedMore(messages: seq<Message>, m: Message, delivered: bool)
    ensures Tagged(messages + [m], delivered) == Tagged(messages, delivered) + [Removal(m, delivered)]
  {
  }

  lemma TaggedNone(delivered: bool)
    ensures Tagged([], delivered) == []
  {
  }

  lemma {:induction false} RemoveMore(removals: seq<Removal>, messages: seq<Message>, delivered: bool)
    ensures Gone(removals + Tagged(messages, delivered)) == Gone(removals) + messages
    ensures DeliveredOf(removals + Tagged(messages, delivered))
         == DeliveredOf(removals) + if delivered then messages else []
    decreases |messages|
  {
    hide Gone, DeliveredOf, Tagged;
    if messages == [] {
      TaggedNone(delivered);
      assert removals + [] == removals;
    } else {
      var rest, m := messages[..|messages| - 1], messages[|messages| - 1];
      RemoveMore(removals, rest, delivered);
      assert messages == rest + [m];
      TaggedMore(rest, m, delivered);
      RemoveOne(removals + Tagged(rest, delivered), Removal(m, delivered));
      assert removals + Tagged(messages, delivered) == removals + Tagged(rest, delivered) + [Removal(m, delivered)];
    }
  }

  /** What a drain takes of a queue's messages in the given mode. */
  function Taken(messages: seq<Message>, mode: QueueMode): (taken: seq<Message>)
    ensures |taken| <= |messages|
  {
    if mode.All? || messages == [] then messages else messages[..1]
  }

  class PendingMessageQueue {
    var messages: seq<Message>
    var mode: QueueMode
    /** Every message ever enqueued, and how those no longer waiting left, both in order. */
    ghost var enqueued: seq<Message>
    ghost var removals: seq<Removal>

    /** Each message ever enqueued has left exactly once or waits, in order. */
    ghost predicate Valid()
      reads this
    {
      enqueued == Gone(removals) + messages
    }

    ghost function Delivered(): seq<Message>
      reads this
    {
      DeliveredOf(removals)
    }

    constructor (mode: QueueMode)
      ensures Valid() && messages == [] && enqueued == [] && Delivered() == [] && this.mode == mode
    {
      this.mode := mode;
      messages, enqueued, removals := [], [], [];
    }

    method Enqueue(message: Message)
      requires Valid()
      modifies this
      ensures Valid() && mode == old(mode)
      ensures messages == old(messages) + [message]
      ensures enqueued == old(enqueued) + [message] && removals == old(removals)
    {
      messages := messages + [message];
      enqueued := enqueued + [message];
    }

    method Drain() returns (drained: seq<Message>)
      requires Valid()
      modifies this
      ensures Valid() && mode == old(mode) && enqueued == old(enqueued)
      ensures Delivered() == old(Delivered()) + drained
      ensures drained == Taken(old(messages), mode) && messages == old(messages)[|drained|..]
      ensures drained + messages == old(messages)
      ensures mode.All? ==> messages == []
      ensures mode.OneAtATime? ==> |drained| <= 1
      ensures drained == [] <==> old(messages) == []
    {
      if mode == All {
        drained := messages;
      } else if messages == [] {
        drained := [];
      } else {
        drained := [messages[0]];
      }
      RemoveMore(removals, drained, true);
      removals := removals + Tagged(drained, true);
      messages := messages[|drained|..];
    }

    method Clear()
      requires Valid()
      modifies this
      ensures Valid() && mode == old(mode) && enqueued == old(enqueued)
      ensures messages == [] && Delivered() == old(Delivered())
    {
      RemoveMore(removals, messages, false);
      removals := removals + Tagged(messages, false);
      messages := [];
    }
  }
}
