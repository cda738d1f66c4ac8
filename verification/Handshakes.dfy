/** The connection's lifecycle: transports come and go, and each `connect` has its handshake settled exactly once. */
module Handshakes {

  /** `open` says whether the handshake of the connection is still to be settled. */
  datatype Lifecycle =
    | Disconnected
    | Connecting(id: nat, transport: bool)
    | Connected(id: nat, open: bool)

  datatype Settlement = Resolved | Rejected

  datatype Message = Hello | HelloError | Other

  /** What a callback does to the connection while it runs. Each change of state has one: what the callbacks do, one
      after the other, is a script, which ends in callbacks that do nothing. */
  datatype Reaction = Nothing | Connects | Closes | ClosesAndConnects

  predicate Ends(r: Reaction) { r.Closes? || r.ClosesAndConnects? }

  predicate Reconnects(r: Reaction) { r.Connects? || r.ClosesAndConnects? }

  function First(script: seq<Reaction>): Reaction { if script == [] then Nothing else script[0] }

  /** The callback makes a new connection, and the callback for that leaves it alone. */
  predicate JustConnects(script: seq<Reaction>) {
    First(script).Connects? && !Ends(First(script[1..]))
  }

  /** A message of a chunk, with what the callbacks do that run while it is handled. */
  datatype Arrival = Arrival(message: Message, onHandshake: Reaction, throws: bool, script: seq<Reaction>)

  predicate Quiet(a: Arrival) { a.onHandshake.Nothing? && a.script == [] }

  class Connection {
    var lifecycle: Lifecycle
    var sequence: nat
    /** History: how the handshake of each connection was settled. */
    ghost var settled: map<nat, Settlement>

    /** The handshakes that are still to be settled. */
    ghost function OpenHandshakes(): set<nat>
      reads this`lifecycle
    {
      match lifecycle
      case Disconnected => {}
      case Connecting(id, _) => {id}
      case Connected(id, open) => if open then {id} else {}
    }

    /** Every connection's handshake is settled, except that of the present one while it is open. */
    ghost predicate Valid()
      reads this
    {
      && (lifecycle.Connecting? || lifecycle.Connected? ==> lifecycle.id == sequence > 0)
      && (forall id :: id in settled <==> 1 <= id <= sequence && id !in OpenHandshakes())
    }

    /** Between events only a connection that is connecting has an open handshake. */
    ghost predicate AtRest()
      reads this
    {
      Valid() && (lifecycle.Connected? ==> !lifecycle.open)
    }

    /** A settled handshake stays settled as it was, and no identifier is used twice. */
    twostate predicate SettledKept()
      reads this`settled, this`sequence
    {
      old(sequence) <= sequence && forall id | id in old(settled) :: id in settled && settled[id] == old(settled)[id]
    }

    constructor ()
      ensures AtRest() && lifecycle == Disconnected && sequence == 0
    {
      lifecycle, sequence, settled := Disconnected, 0, map[];
    }

    predicate IsCurrent(id: nat)
      reads this`lifecycle
    {
      !lifecycle.Disconnected? && lifecycle.id == id
    }

    /** A new connection, unless there is one. It is the present one afterwards, unless the callback ends it. */
    method Connect(script: seq<Reaction>) returns (ok: bool, rest: seq<Reaction>)
      requires Valid()
      modifies this
      ensures Valid() && SettledKept() && ok == old(lifecycle).Disconnected? && |rest| <= |script|
      ensures !ok ==> unchanged(this) && rest == script
      ensures ok ==> AtRest() && sequence > old(sequence)
      ensures ok && !Ends(First(script)) ==> Renewed()
      ensures ok && Ends(First(script)) ==>
        var id := old(sequence) + 1;
        !IsCurrent(id) && id in settled && settled[id] == Rejected
      decreases |script|, 1
    {
      ok, rest := lifecycle.Disconnected?, script;
      if ok {
        sequence := sequence + 1;
        lifecycle := Connecting(sequence, false);
        rest := Notify(script);
      }
    }

    /** The next callback of the script runs. */
    method Notify(script: seq<Reaction>) returns (rest: seq<Reaction>)
      requires Valid()
      modifies this
      ensures Valid() && SettledKept() && |rest| <= |script|
      ensures Reacted(First(script))
      ensures old(lifecycle).Disconnected? && JustConnects(script) ==> Renewed()
      decreases |script|, 0
    {
      rest := script;
      if script != [] {
        rest := React(script[0], script[1..]);
      }
    }

    /** There is a new connection, and nothing has happened to it. */
    twostate predicate Renewed()
      reads this
    {
      lifecycle == Connecting(sequence, false) && sequence == old(sequence) + 1 && settled == old(settled)
    }

    /** What a reaction does to the connection it finds, if any. */
    twostate predicate Reacted(r: Reaction)
      reads this
    {
      if old(lifecycle).Disconnected? then
        if Reconnects(r) then AtRest() && sequence > old(sequence) else unchanged(this)
      else if Ends(r) then
        && AtRest() && !IsCurrent(old(lifecycle.id))
        && forall id | id in old(OpenHandshakes()) :: id in settled && settled[id] == Rejected
      else unchanged(this)
    }

    /** A callback does what it does; the changes of state this makes have callbacks of their own. */
    method React(r: Reaction, script: seq<Reaction>) returns (rest: seq<Reaction>)
      requires Valid()
      modifies this
      ensures Valid() && SettledKept() && |rest| <= |script|
      ensures Reacted(r)
      ensures !old(lifecycle).Disconnected? && !Ends(r) ==> rest == script
      ensures old(lifecycle).Disconnected? && r.Connects? && !Ends(First(script)) ==> Renewed()
      decreases |script|, 2
    {
      rest := script;
      if Ends(r) {
        rest := Fail(rest);
      }
      if Reconnects(r) {
        var ok;
        ok, rest := Connect(rest);
      }
    }

    /** Ends the connection, if there is one, and rejects its handshake, if it is open. No connection is left, unless
        the callback for the end makes a new one. */
    method Fail(script: seq<Reaction>) returns (rest: seq<Reaction>)
      requires Valid()
      modifies this
      ensures Valid() && SettledKept() && |rest| <= |script|
      ensures old(lifecycle).Disconnected? ==> unchanged(this) && rest == script
      ensures !old(lifecycle).Disconnected? ==>
        && AtRest() && !IsCurrent(old(lifecycle.id))
        && if Reconnects(First(script)) then sequence > old(sequence)
           else lifecycle == Disconnected && sequence == old(sequence)
      ensures !old(lifecycle).Disconnected? && JustConnects(script) ==>
        lifecycle == Connecting(sequence, false) && sequence == old(sequence) + 1
      ensures forall id | id in old(OpenHandshakes()) :: id in settled && settled[id] == Rejected
      decreases |script|, 1
    {
      rest := script;
      if lifecycle.Disconnected? {
        return;
      }
      if lifecycle.Connecting? || lifecycle.open {
        settled := settled[lifecycle.id := Rejected];
      }
      lifecycle := Disconnected;
      rest := Notify(script);
    }

    /** The transport factory has returned a transport, or has thrown. */
    method OpenTransport(id: nat, ok: bool, script: seq<Reaction>) returns (kept: bool)
      requires AtRest()
      modifies this
      ensures AtRest() && SettledKept()
      ensures kept == (ok && old(lifecycle.Connecting? && lifecycle.id == id))
      ensures kept ==> lifecycle == Connecting(id, true) && sequence == old(sequence) && settled == old(settled)
      ensures !ok && old(IsCurrent(id)) ==> !IsCurrent(id) && (!Reconnects(First(script)) ==> lifecycle == Disconnected)
      ensures !kept && !(!ok && old(IsCurrent(id))) ==> unchanged(this)
    {
      kept := ok && lifecycle.Connecting? && lifecycle.id == id;
      if !ok {
        if IsCurrent(id) { var rest := Fail(script); }
      } else if kept {
        lifecycle := Connecting(id, true);
      }
    }

    /** A message for the current connection. The first must be the server's hello; the handshake is then resolved,
        unless one of the callbacks fails or ends the connection. `onHandshake` is what the handshake callback does
        before it returns, or throws; state listeners do not throw: the client catches what its listeners throw. */
    method HandleMessage(m: Message, onHandshake: Reaction, throws: bool, script: seq<Reaction>)
      returns (delivered: bool)
      requires AtRest()
      modifies this
      ensures AtRest() && SettledKept()
      ensures delivered == (old(lifecycle).Connected? && m.Other?)
      ensures old(lifecycle).Connecting? ==>
        var id := old(lifecycle).id;
        && id in settled
        && settled[id] == (if m.Hello? && old(lifecycle).transport && !throws && !Ends(onHandshake)
                             && !Ends(First(script))
                           then Resolved else Rejected)
        && (settled[id] == Resolved ==> lifecycle == Connected(id, false))
        && (settled[id] == Rejected ==> !IsCurrent(id))
      ensures old(lifecycle).Connected? && !m.Other? ==> !IsCurrent(old(lifecycle.id))
      ensures old(lifecycle).Connected? && !m.Other? && JustConnects(script) ==>
        lifecycle == Connecting(sequence, false) && sequence == old(sequence) + 1
      ensures !Reconnects(First(script)) && onHandshake.Nothing? && script == [] ==> sequence == old(sequence)
      ensures old(lifecycle).Disconnected? || delivered ==> unchanged(this)
    {
      delivered := false;
      if lifecycle.Connecting? {
        if !m.Hello? || !lifecycle.transport {
          var rest := Fail(script);
          return;
        }
        var id := lifecycle.id;
        lifecycle := Connected(id, true);
        var rest := React(onHandshake, script);
        if throws {
          if lifecycle == Connected(id, true) { rest := Fail(rest); }
          return;
        }
        if lifecycle != Connected(id, true) {
          return;
        }
        rest := Notify(rest);
        if lifecycle != Connected(id, true) {
          return;
        }
        lifecycle := Connected(id, false);
        settled := settled[id := Resolved];
      } else if lifecycle.Connected? {
        if m.Other? { delivered := true; } else { var rest := Fail(script); }
      }
    }

    /** A chunk from the transport of connection `id`: its messages are handled in order, until there is no connection. */
    method HandleData(id: nat, arrivals: seq<Arrival>, early: seq<Reaction>)
      requires AtRest()
      modifies this
      ensures AtRest() && SettledKept()
      ensures !old(IsCurrent(id)) ==> unchanged(this)
      ensures old(IsCurrent(id)) && !(old(lifecycle).Connecting? && !old(lifecycle.transport))
              && (forall i | 0 <= i < |arrivals| :: Quiet(arrivals[i])) ==>
        sequence == old(sequence)
    {
      if !IsCurrent(id) {
        return;
      }
      if lifecycle.Connecting? && !lifecycle.transport {
        var rest := Fail(early);
        return;
      }
      HandleMessages(arrivals);
    }

    method HandleMessages(arrivals: seq<Arrival>)
      requires AtRest()
      modifies this
      ensures AtRest() && SettledKept()
      ensures (forall i | 0 <= i < |arrivals| :: Quiet(arrivals[i])) ==> sequence == old(sequence)
      ensures old(lifecycle).Connecting? && !old(lifecycle.transport) && arrivals != [] ==>
        old(sequence) in settled && settled[old(sequence)] == Rejected && !IsCurrent(old(sequence))
      ensures arrivals == [] || old(lifecycle).Disconnected? ==> unchanged(this)
    {
      for i := 0 to |arrivals|
        invariant AtRest() && SettledKept()
        invariant i == 0 || old(lifecycle).Disconnected? ==> unchanged(this)
        invariant (forall j | 0 <= j < |arrivals| :: Quiet(arrivals[j])) ==> sequence == old(sequence)
        invariant i > 0 && old(lifecycle).Connecting? && !old(lifecycle.transport) ==>
          old(sequence) in settled && settled[old(sequence)] == Rejected && !IsCurrent(old(sequence))
      {
        if lifecycle.Disconnected? {
          return;
        }
        var a := arrivals[i];
        var delivered := HandleMessage(a.message, a.onHandshake, a.throws, a.script);
      }
    }

    /** A message ends the connection, and the callback for that connects anew: the new connection outlasts the chunk
        exactly if the message was the chunk's last. Otherwise the next message of the old transport is taken for the
        first of the new one, and rejects its handshake. */
    method ConnectAnewWithinChunk(id: nat, arrivals: seq<Arrival>)
      requires AtRest() && lifecycle == Connected(id, false) && arrivals != []
      requires !arrivals[0].message.Other? && JustConnects(arrivals[0].script)
      modifies this
      ensures AtRest() && SettledKept()
      ensures |arrivals| == 1 ==> lifecycle == Connecting(sequence, false) && sequence == old(sequence) + 1
      ensures |arrivals| > 1 ==>
        var anew := old(sequence) + 1;
        anew in settled && settled[anew] == Rejected && !IsCurrent(anew)
      ensures |arrivals| > 1 && (forall i | 0 < i < |arrivals| :: Quiet(arrivals[i])) ==> lifecycle == Disconnected
    {
      var a := arrivals[0];
      var delivered := HandleMessage(a.message, a.onHandshake, a.throws, a.script);
      HandleMessages(arrivals[1..]);
    }

    /** A close or an error of the transport of connection `id`: it ends that connection, and no later one. */
    method HandleClose(id: nat, script: seq<Reaction>)
      requires AtRest()
      modifies this
      ensures AtRest() && SettledKept() && !IsCurrent(id)
      ensures !old(IsCurrent(id)) ==> unchanged(this)
      ensures old(IsCurrent(id)) && !Reconnects(First(script)) ==> lifecycle == Disconnected && sequence == old(sequence)
      ensures old(IsCurrent(id)) && Reconnects(First(script)) ==> sequence > old(sequence)
    {
      if IsCurrent(id) { var rest := Fail(script); }
    }
  }
}
