/** The session snapshots a client keeps: revisions, attachment, and what a batch of snapshots leaves. */
module ClientStates {
  import opened LeaseProtocol
  import opened Options

  type SessionId = nat
  datatype Snapshot = Snapshot(revision: nat, attached: bool)

  /** What a client knows of one session. */
  datatype Known = Known(snapshot: Option<Snapshot>, attached: bool)

  /** A snapshot older than the one kept is ignored, unless it is forced. */
  function Applied(k: Known, p: Snapshot, force: bool): Known {
    if !force && k.snapshot.Some? && p.revision < k.snapshot.value.revision then k
    else Known(Some(p), p.attached)
  }

  function AppliedAll(k: Known, ps: seq<Snapshot>): Known {
    if ps == [] then k else Applied(AppliedAll(k, ps[..|ps| - 1]), ps[|ps| - 1], false)
  }

  /** `ps[i]` is the newest of `ps`; among equals the one that came last. */
  predicate IsLatest(ps: seq<Snapshot>, i: nat) {
    && i < |ps|
    && (forall j | 0 <= j < i :: ps[j].revision <= ps[i].revision)
    && (forall j | i < j < |ps| :: ps[j].revision < ps[i].revision)
  }

  /** Whatever was known before, a batch of snapshots comes to its newest one alone. */
  lemma {:induction false} KeepsTheLatest(k: Known, ps: seq<Snapshot>) returns (i: nat)
    requires ps != []
    ensures IsLatest(ps, i) && AppliedAll(k, ps) == Applied(k, ps[i], false)
    ensures k.snapshot.None? || k.snapshot.value.revision <= ps[i].revision ==>
      AppliedAll(k, ps) == Known(Some(ps[i]), ps[i].attached)
  {
    var n := |ps| - 1;
    if n == 0 {
      assert ps[..n] == [];
      i := 0;
    } else {
      i := KeepsTheLatest(k, ps[..n]);
      assert forall j | 0 <= j < n :: ps[..n][j] == ps[j];
      if ps[i].revision <= ps[n].revision { i := n; }
    }
  }

  /** Whatever was known before, snapshots with distinct revisions leave the same knowledge in whatever order they come. */
  lemma {:induction false} OrderDoesNotMatter(k: Known, ps: seq<Snapshot>, qs: seq<Snapshot>)
    requires multiset(ps) == multiset(qs)
    requires forall i, j | 0 <= i < j < |ps| :: ps[i].revision != ps[j].revision
    ensures AppliedAll(k, ps) == AppliedAll(k, qs)
  {
    assert |multiset(ps)| == |ps| && |multiset(qs)| == |qs|;
    if ps != [] {
      var i := KeepsTheLatest(k, ps);
      var j := KeepsTheLatest(k, qs);
      assert ps[i] in multiset(qs) && qs[j] in multiset(ps);
      var m :| 0 <= m < |ps| && ps[m] == qs[j];
      var n :| 0 <= n < |qs| && qs[n] == ps[i];
    }
  }

  /** The revision kept never goes down. */
  lemma {:induction false} RevisionsNeverDecrease(k: Known, ps: seq<Snapshot>)
    requires k.snapshot.Some?
    ensures AppliedAll(k, ps).snapshot.Some?
    ensures AppliedAll(k, ps).snapshot.value.revision >= k.snapshot.value.revision
    ensures forall p | p in ps :: AppliedAll(k, ps).snapshot.value.revision >= p.revision
  {
    if ps != [] {
      var n := |ps| - 1;
      RevisionsNeverDecrease(k, ps[..n]);
      forall p | p in ps ensures AppliedAll(k, ps).snapshot.value.revision >= p.revision {
        if p != ps[n] { assert p in ps[..n]; }
      }
    }
  }

  class ClientState {
    var snapshots: map<SessionId, Snapshot>
    var attachedIds: set<SessionId>

    ghost function Of(s: SessionId): Known
      reads this
    {
      Known(if s in snapshots then Some(snapshots[s]) else None, s in attachedIds)
    }

    constructor ()
      ensures snapshots == map[] && attachedIds == {}
    {
      snapshots := map[];
      attachedIds := {};
    }

    method Reset()
      modifies this
      ensures snapshots == map[] && attachedIds == {}
    {
      snapshots := map[];
      attachedIds := {};
    }

    method ClearAttachments()
      modifies this`attachedIds
      ensures attachedIds == {}
    {
      attachedIds := {};
    }

    method ForgetSessionSnapshot(s: SessionId) returns (previous: Option<Snapshot>)
      modifies this`snapshots
      ensures previous == old(Of(s)).snapshot
      ensures snapshots == old(snapshots) - {s}
    {
      previous := if s in snapshots then Some(snapshots[s]) else None;
      snapshots := snapshots - {s};
    }

    method RestoreSessionSnapshot(s: SessionId, p: Snapshot)
      modifies this`snapshots
      ensures snapshots == if s in old(snapshots) then old(snapshots) else old(snapshots)[s := p]
    {
      if s !in snapshots {
        snapshots := snapshots[s := p];
      }
    }

    method ApplySessionSnapshot(s: SessionId, p: Snapshot, force: bool)
      modifies this
      ensures Of(s) == Applied(old(Of(s)), p, force)
      ensures forall u | u != s :: Of(u) == old(Of(u))
    {
      if !force && s in snapshots && p.revision < snapshots[s].revision {
        return;
      }
      snapshots := snapshots[s := p];
      attachedIds := if p.attached then attachedIds + {s} else attachedIds - {s};
    }

    /** A detach reply: whatever was known, the session is not attached. */
    method ApplyDetached(s: SessionId)
      modifies this
      ensures !Of(s).attached && s !in attachedIds
      ensures Of(s).snapshot.Some? <==> old(Of(s)).snapshot.Some?
      ensures Of(s).snapshot.Some? ==> Of(s).snapshot.value == old(Of(s)).snapshot.value.(attached := false)
      ensures forall u | u != s :: Of(u) == old(Of(u))
    {
      attachedIds := attachedIds - {s};
      if s in snapshots {
        ApplySessionSnapshot(s, snapshots[s].(attached := false), true);
      }
    }

    method ApplyRemoved(s: SessionId)
      modifies this
      ensures Of(s) == Known(None, false)
      ensures forall u | u != s :: Of(u) == old(Of(u))
    {
      snapshots := snapshots - {s};
      attachedIds := attachedIds - {s};
    }
  }
}
