/** What each publication comes to over a run, told by the signals raised and the generations begun before it. */
module CatalogEffects {
  import opened CatalogPublication
  import opened CatalogRuns
  import opened Options

  // ---- Signals and generations ----

  /** Some step before `i` raised the signal: its caller did, or its refresh was superseded. */
  ghost predicate RaisedBefore(states: seq<State>, steps: seq<Step>, i: nat, signal: Signal)
    requires i <= |steps| < |states|
  {
    exists k | 0 <= k < i :: Raises(states[k], steps[k], signal)
  }

  /** A step raises a caller's signal, or ends the refresh of a provider by superseding it. */
  predicate Raises(s: State, step: Step, signal: Signal) {
    match signal
    case OfCaller(caller) => step == Abort(caller)
    case OfRefresh(controller) => (step.Supersede? || step.Begin?) && At(s.controllers, step.p) == Some(controller)
  }

  lemma PublicationsRaiseNothing(s: State, step: Step)
    requires Allowed(s, step) && OfPublication(step)
    ensures Do(s, step).aborted == s.aborted && Do(s, step).generations == s.generations
  {
    hide Current, Put, Content, Finished, Updated, At;
    if !step.Queue? { StageKeeps(s, step.id); }
  }

  lemma StageKeeps(s: State, id: PublicationId)
    requires id < |s.pubs|
    ensures var u := Updated(s, id); u.aborted == s.aborted && u.generations == s.generations
    ensures forall stage :: var f := Finished(s, id, stage); f.aborted == s.aborted && f.generations == s.generations
  {
    hide At;
  }

  lemma OneMoreRaised(s: State, step: Step, signal: Signal)
    requires Allowed(s, step)
    ensures signal in Do(s, step).aborted <==> signal in s.aborted || Raises(s, step, signal)
  {
    if OfPublication(step) {
      PublicationsRaiseNothing(s, step);
      hide Do, Allowed;
    }
  }

  lemma {:induction false} RaisedMore(states: seq<State>, steps: seq<Step>, i: nat, signal: Signal)
    requires 0 < i <= |steps| < |states|
    ensures RaisedBefore(states, steps, i, signal)
       <==> RaisedBefore(states, steps, i - 1, signal) || Raises(states[i - 1], steps[i - 1], signal)
  {
    hide Raises;
  }

  /** Exactly the signals raised before are raised. */
  lemma {:induction false} AbortedIffRaised(states: seq<State>, steps: seq<Step>, i: nat, signal: Signal)
    requires IsRun(states, steps) && i < |states|
    ensures signal in states[i].aborted <==> RaisedBefore(states, steps, i, signal)
  {
    RunLength(states, steps);
    if i > 0 {
      AbortedIffRaised(states, steps, i - 1, signal);
      assert Moves(states, steps, i - 1);
      hide IsRun, Raises, RaisedBefore, Do, Allowed;
      OneMoreRaised(states[i - 1], steps[i - 1], signal);
      RaisedMore(states, steps, i, signal);
    }
  }

  /** How many refreshes of a provider have begun or been superseded before `i`. */
  function Begun(steps: seq<Step>, i: nat, p: ProviderId): nat
    requires i <= |steps|
  {
    if i == 0 then 0
    else
      var step := steps[i - 1];
      Begun(steps, i - 1, p) + if (step.Supersede? || step.Begin?) && step.p == p then 1 else 0
  }

  lemma OneMoreBegun(s: State, step: Step, p: ProviderId)
    requires Allowed(s, step)
    ensures Generation(Do(s, step), p) == Generation(s, p) + if (step.Supersede? || step.Begin?) && step.p == p then 1 else 0
  {
    if OfPublication(step) {
      PublicationsRaiseNothing(s, step);
      hide Do, Allowed;
    }
  }

  lemma {:induction false} GenerationIsBegun(states: seq<State>, steps: seq<Step>, i: nat, p: ProviderId)
    requires IsRun(states, steps) && i < |states|
    ensures Generation(states[i], p) == Begun(steps, i, p)
  {
    if i > 0 {
      GenerationIsBegun(states, steps, i - 1, p);
      assert Moves(states, steps, i - 1);
      hide IsRun, Generation, Do, Allowed;
      OneMoreBegun(states[i - 1], steps[i - 1], p);
    }
  }

  /** The publication still counts: none of its signals has been raised, and no refresh of its provider has begun or
      been superseded since that of its generation. */
  ghost predicate StillCounts(states: seq<State>, steps: seq<Step>, i: nat, pub: Publication)
    requires i <= |steps| < |states|
  {
    && (forall signal | signal in pub.signals :: !RaisedBefore(states, steps, i, signal))
    && pub.generation == Begun(steps, i, pub.provider)
  }

  lemma {:induction false} CurrentIffCounts(states: seq<State>, steps: seq<Step>, i: nat, pub: Publication)
    requires IsRun(states, steps) && i < |states|
    ensures Current(states[i], pub) <==> StillCounts(states, steps, i, pub)
  {
    hide RaisedBefore, IsRun;
    RunLength(states, steps);
    GenerationIsBegun(states, steps, i, pub.provider);
    forall signal ensures signal in states[i].aborted <==> RaisedBefore(states, steps, i, signal) {
      AbortedIffRaised(states, steps, i, signal);
    }
  }

  // ---- Publications ----

  /** A publication that starts is refused exactly if it no longer counts; otherwise it goes on to its store mutation, or,
      having none, is published at once. */
  lemma {:induction false} StartComesTo(states: seq<State>, steps: seq<Step>, i: nat)
    requires IsRun(states, steps) && i < |steps| && steps[i].Start?
    ensures steps[i].id < |states[i].pubs| == |states[i + 1].pubs|
    ensures var before, after := states[i].pubs[steps[i].id], states[i + 1].pubs[steps[i].id];
      && after == before.(stage := if !StillCounts(states, steps, i, before) then Refused
                                   else if before.persist.Keep? then Published else Storing)
      && states[i + 1].store == states[i].store
      && states[i + 1].memory == MemoryAfter(states[i].memory, after)
  {
    assert Moves(states, steps, i);
    CurrentIffCounts(states, steps, i, states[i].pubs[steps[i].id]);
  }

  /** Memory follows a publication when it is published, if it sets a catalog. */
  function MemoryAfter(memory: map<ProviderId, Catalog>, pub: Publication): map<ProviderId, Catalog> {
    if pub.stage.Published? && pub.update.Some? then memory[pub.provider := pub.update.value] else memory
  }

  /** One that resumes after its mutation is published exactly if it still counts, and memory follows only then. */
  lemma {:induction false} ResumptionComesTo(states: seq<State>, steps: seq<Step>, i: nat)
    requires IsRun(states, steps) && i < |steps| && steps[i].Resume?
    ensures steps[i].id < |states[i].pubs| == |states[i + 1].pubs|
    ensures var before, after := states[i].pubs[steps[i].id], states[i + 1].pubs[steps[i].id];
      && after == before.(stage := if StillCounts(states, steps, i, before) then Published else Refused)
      && states[i + 1].store == states[i].store
      && states[i + 1].memory == MemoryAfter(states[i].memory, after)
  {
    assert Moves(states, steps, i);
    CurrentIffCounts(states, steps, i, states[i].pubs[steps[i].id]);
  }

  /** A store that fails settles its publication, and nothing but a landing changes the store. */
  lemma {:induction false} FailureComesTo(states: seq<State>, steps: seq<Step>, i: nat)
    requires IsRun(states, steps) && i < |steps| && steps[i].Fail?
    ensures steps[i].id < |states[i].pubs| == |states[i + 1].pubs| && states[i + 1].pubs[steps[i].id].stage == Failed
    ensures states[i + 1].store == states[i].store && states[i + 1].memory == states[i].memory
  {
    assert Moves(states, steps, i);
  }

  /** The chain entry of a provider, if it has one, is a publication of its own that has not settled. */
  predicate ChainOpen(s: State, p: ProviderId) {
    p in s.chains ==>
      s.chains[p] < |s.pubs| && s.pubs[s.chains[p]].provider == p && !Settled(s.pubs[s.chains[p]])
  }

  lemma FinishedOpen(s: State, id: PublicationId, stage: Stage, p: ProviderId)
    requires id < |s.pubs| && ChainOpen(s, p)
    ensures ChainOpen(Finished(s, id, stage), p)
  {
  }

  lemma StagedOpen(s: State, id: PublicationId, stage: Stage, p: ProviderId)
    requires id < |s.pubs| && ChainOpen(s, p) && (stage.Storing? || stage.Stored?)
    ensures ChainOpen(Staged(s, id, stage), p)
  {
  }

  lemma {:induction false} ChainStep(s: State, step: Step, p: ProviderId)
    requires Allowed(s, step) && ChainOpen(s, p)
    ensures ChainOpen(Do(s, step), p)
  {
    if OfPublication(step) {
      var pub := s.pubs[step.id];
      var t := s.(memory := if pub.update.Some? then s.memory[pub.provider := pub.update.value] else s.memory);
      hide Current, Finished, Staged;
      FinishedOpen(s, step.id, Refused, p);
      FinishedOpen(s, step.id, Failed, p);
      FinishedOpen(t, step.id, Published, p);
      StagedOpen(s, step.id, Storing, p);
      if step.Land? { StagedOpen(s.(store := Put(s.store, pub.provider, Content(pub.persist))), step.id, Stored, p); }
    }
  }

  /** A chain entry never outlives its publication. */
  lemma {:induction false} ChainIsUnsettled(states: seq<State>, steps: seq<Step>, i: nat, p: ProviderId)
    requires IsRun(states, steps) && i < |states|
    ensures ChainOpen(states[i], p)
  {
    if i > 0 {
      ChainIsUnsettled(states, steps, i - 1, p);
      assert Moves(states, steps, i - 1);
      hide IsRun, ChainOpen, Do, Allowed;
      ChainStep(states[i - 1], steps[i - 1], p);
    }
  }

  /** A refresh that ends forgets its own controller and no other. */
  lemma {:induction false} EndForgetsItsOwn(states: seq<State>, steps: seq<Step>, i: nat, p: ProviderId)
    requires IsRun(states, steps) && i < |steps| && steps[i].End?
    ensures At(states[i + 1].controllers, p) ==
            if steps[i].p == p && At(states[i].controllers, p) == Some(steps[i].controller) then None
            else At(states[i].controllers, p)
  {
    assert Moves(states, steps, i);
  }
}
