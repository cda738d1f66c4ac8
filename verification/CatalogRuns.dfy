/** Runs of the publication protocol: what every step keeps, and when a provider's memory agrees with the store. */
module CatalogRuns {
  import opened CatalogPublication
  import opened Options

  ghost predicate IsRun(states: seq<State>, steps: seq<Step>) {
    && |states| == |steps| + 1
    && (exists store :: states[0] == Initial(store))
    && forall i | 0 <= i < |steps| :: Moves(states, steps, i)
  }

  ghost predicate Moves(states: seq<State>, steps: seq<Step>, i: nat)
    requires i < |steps| && i + 1 < |states|
  {
    Allowed(states[i], steps[i]) && states[i + 1] == Do(states[i], steps[i])
  }

  lemma RunLength(states: seq<State>, steps: seq<Step>)
    requires IsRun(states, steps)
    ensures |states| == |steps| + 1
  {
  }

  // ---- One step ----

  lemma {:induction false} FinishedKeeps(s: State, id: PublicationId, stage: Stage)
    requires Inv(s) && id < |s.pubs| && !Settled(s.pubs[id])
    requires stage.Published? || stage.Refused? || stage.Failed?
    requires forall a | 0 <= a < id && s.pubs[a].provider == s.pubs[id].provider :: Settled(s.pubs[a])
    ensures Inv(Finished(s, id, stage))
  {
    hide InTurn, Chained, Tails;
    var t := Finished(s, id, stage);
    StageChanges(s.pubs, id, stage, s.chains, t.chains);
  }

  lemma {:induction false} StorageKeeps(s: State, id: PublicationId, stage: Stage, store: map<ProviderId, Catalog>)
    requires Inv(s) && id < |s.pubs| && !Settled(s.pubs[id]) && !s.pubs[id].persist.Keep?
    requires stage.Storing? || stage.Stored?
    requires forall a | 0 <= a < id && s.pubs[a].provider == s.pubs[id].provider :: Settled(s.pubs[a])
    requires store == if stage.Storing? then s.store else Put(s.store, s.pubs[id].provider, Content(s.pubs[id].persist))
    ensures Inv(Staged(s.(store := store), id, stage))
  {
    hide InTurn, Chained, Tails;
    var t := Staged(s.(store := store), id, stage);
    StageChanges(s.pubs, id, stage, s.chains, s.chains);
    forall i | 0 <= i < |t.pubs| && t.pubs[i].stage.Stored?
      ensures !t.pubs[i].persist.Keep? && At(store, t.pubs[i].provider) == Content(t.pubs[i].persist)
    {
      if i != id && t.pubs[i].provider == t.pubs[id].provider {
        MutationsDoNotOverlap(t.pubs, i, id);
      }
    }
  }

  lemma AllBeforeSettled(pubs: seq<Publication>, b: nat)
    requires InTurn(pubs) && b < |pubs| && !pubs[b].stage.Queued?
    ensures forall a | 0 <= a < b && pubs[a].provider == pubs[b].provider :: Settled(pubs[a])
  {
  }

  lemma {:induction false} PublicationStepKeeps(s: State, step: Step)
    requires Inv(s) && Allowed(s, step) && (step.Start? || step.Land? || step.Resume? || step.Fail?)
    ensures Inv(Do(s, step))
  {
    hide InTurn, Chained, Tails, LandedHolds, Storable;
    var id := step.id;
    if step.Start? { TurnComes(s.pubs, id); } else { AllBeforeSettled(s.pubs, id); }
    var p := s.pubs[id];
    var t := s.(memory := if p.update.Some? then s.memory[p.provider := p.update.value] else s.memory);
    if step.Fail? {
      FinishedKeeps(s, id, Failed);
    } else if step.Land? {
      StorageKeeps(s, id, Stored, Put(s.store, p.provider, Content(p.persist)));
    } else if !Current(s, p) {
      FinishedKeeps(s, id, Refused);
    } else if step.Resume? || p.persist.Keep? {
      FinishedKeeps(t, id, Published);
    } else {
      StorageKeeps(s, id, Storing, s.store);
      assert s.(store := s.store) == s;
    }
  }

  lemma {:induction false} StepKeeps(s: State, step: Step)
    requires Inv(s) && Allowed(s, step)
    ensures Inv(Do(s, step))
  {
    hide InTurn, Chained, Tails, LandedHolds, Storable;
    if step.Start? || step.Land? || step.Resume? || step.Fail? {
      PublicationStepKeeps(s, step);
    } else if step.Queue? {
      var pub := Publication(step.p, step.generation, step.signals, step.persist, step.update, At(s.chains, step.p), Queued);
      Queueing(s.pubs, s.chains, pub);
      MoreQueued(s.pubs, s.store, pub);
    }
  }

  lemma MoreQueued(pubs: seq<Publication>, store: map<ProviderId, Catalog>, pub: Publication)
    requires LandedHolds(pubs, store) && Storable(pubs) && pub.stage.Queued?
    ensures LandedHolds(pubs + [pub], store) && Storable(pubs + [pub])
  {
  }

  lemma {:induction false} RunKeeps(states: seq<State>, steps: seq<Step>, i: nat)
    requires IsRun(states, steps) && i < |states|
    ensures Inv(states[i])
  {
    if i > 0 {
      RunKeeps(states, steps, i - 1);
      assert Moves(states, steps, i - 1);
      hide Inv, Do, Allowed;
      StepKeeps(states[i - 1], steps[i - 1]);
    }
  }

  // ---- Generations ----

  lemma {:induction false} GenerationsGrow(states: seq<State>, steps: seq<Step>, i: nat, j: nat, p: ProviderId)
    requires IsRun(states, steps) && i <= j < |states|
    ensures Generation(states[i], p) <= Generation(states[j], p)
    decreases j
  {
    if i < j {
      GenerationsGrow(states, steps, i, j - 1, p);
      assert Moves(states, steps, j - 1);
      hide IsRun, Moves, Do, Allowed, Generation;
      GenerationStep(states[j - 1], steps[j - 1], p);
    }
  }

  lemma GenerationStep(s: State, step: Step, p: ProviderId)
    requires Allowed(s, step)
    ensures Generation(s, p) <= Generation(Do(s, step), p)
  {
  }

  /** Step `i` starts a store mutation of `p`. */
  predicate StartsMutation(states: seq<State>, steps: seq<Step>, i: nat, p: ProviderId)
    requires i < |steps| && i + 1 < |states|
  {
    && steps[i].Start? && steps[i].id < |states[i].pubs| && steps[i].id < |states[i + 1].pubs|
    && states[i].pubs[steps[i].id].provider == p && states[i + 1].pubs[steps[i].id].stage.Storing?
  }

  /** Per provider, store mutations start in the order of their generations. */
  lemma {:induction false} MutationsInOrder(states: seq<State>, steps: seq<Step>, i: nat, j: nat, p: ProviderId)
    requires IsRun(states, steps) && i < j < |steps|
    requires StartsMutation(states, steps, i, p) && StartsMutation(states, steps, j, p)
    ensures states[i].pubs[steps[i].id].generation <= states[j].pubs[steps[j].id].generation
  {
    assert Moves(states, steps, i) && Moves(states, steps, j);
    GenerationsGrow(states, steps, i, j, p);
  }

  /** Memory changes only through a publication that is current, and then to what it sets. */
  lemma {:induction false} UpdatesAreCurrent(states: seq<State>, steps: seq<Step>, i: nat, p: ProviderId)
    requires IsRun(states, steps) && i < |steps|
    requires At(states[i + 1].memory, p) != At(states[i].memory, p)
    ensures (steps[i].Start? || steps[i].Resume?) && steps[i].id < |states[i].pubs|
    ensures var pub := states[i].pubs[steps[i].id];
      pub.provider == p && Current(states[i], pub) && At(states[i + 1].memory, p) == pub.update
  {
    assert Moves(states, steps, i);
  }

  // ---- Memory and store after a persisting publication ----

  /** When a publication that sets in memory what it stored resumes and returns true, store and memory hold that
      catalog, whatever happened between the landing of its mutation and its resumption. */
  lemma {:induction false} PublishedAgrees(states: seq<State>, steps: seq<Step>, i: nat, c: Catalog)
    requires IsRun(states, steps) && i < |steps| && steps[i].Resume?
    requires steps[i].id < |states[i + 1].pubs| && states[i + 1].pubs[steps[i].id].stage.Published?
    requires var pub := states[i + 1].pubs[steps[i].id]; pub.persist == Write(c) && pub.update == Some(c)
    ensures var p := states[i + 1].pubs[steps[i].id].provider;
      At(states[i + 1].store, p) == Some(c) && At(states[i + 1].memory, p) == Some(c)
  {
    assert Moves(states, steps, i);
    RunKeeps(states, steps, i);
  }

  // ---- What a publication keeps ----

  /** What a publication can become: only its stage changes, never back, and not once it has settled. */
  predicate Advances(a: Publication, b: Publication) {
    && b == a.(stage := b.stage)
    && (Settled(a) ==> b == a)
    && (a.stage.Stored? ==> b.stage.Stored? || Settled(b))
    && (b.stage.Queued? ==> a.stage.Queued?)
  }

  lemma {:induction false} PublicationsStay(states: seq<State>, steps: seq<Step>, i: nat, j: nat, k: nat)
    requires IsRun(states, steps) && i <= j < |states| && k < |states[i].pubs|
    ensures k < |states[j].pubs| && Advances(states[i].pubs[k], states[j].pubs[k])
    decreases j
  {
    if i < j {
      PublicationsStay(states, steps, i, j - 1, k);
      assert Moves(states, steps, j - 1);
      hide IsRun, Moves, Do, Allowed, Advances;
      PublicationsStep(states[j - 1], steps[j - 1], k);
      AdvancesFurther(states[i].pubs[k], states[j - 1].pubs[k], states[j].pubs[k]);
    }
  }

  lemma AdvancesFurther(a: Publication, b: Publication, c: Publication)
    requires Advances(a, b) && Advances(b, c)
    ensures Advances(a, c)
  {
  }

  predicate OfPublication(step: Step) { step.Start? || step.Land? || step.Resume? || step.Fail? }

  /** What a step does to the publications: one of them changes its stage, or one more is queued, or nothing. */
  lemma PublicationsAfter(s: State, step: Step)
    requires Allowed(s, step)
    ensures OfPublication(step) ==>
      && step.id < |s.pubs| == |Do(s, step).pubs|
      && var stage := Do(s, step).pubs[step.id].stage;
         && Do(s, step).pubs == s.pubs[step.id := s.pubs[step.id].(stage := stage)]
         && !Settled(s.pubs[step.id]) && !stage.Queued?
         && (s.pubs[step.id].stage.Stored? ==> Settled(Do(s, step).pubs[step.id]))
         && (stage.Storing? ==> step.Start? && Current(s, s.pubs[step.id]))
    ensures step.Queue? ==> |Do(s, step).pubs| == |s.pubs| + 1 && Do(s, step).pubs[|s.pubs|].stage.Queued?
    ensures step.Queue? ==> forall k | 0 <= k < |s.pubs| :: Do(s, step).pubs[k] == s.pubs[k]
    ensures !OfPublication(step) && !step.Queue? ==> Do(s, step).pubs == s.pubs
  {
    hide Current;
  }

  lemma PublicationsStep(s: State, step: Step, k: nat)
    requires Allowed(s, step) && k < |s.pubs|
    ensures k < |Do(s, step).pubs| && Advances(s.pubs[k], Do(s, step).pubs[k])
  {
    PublicationsAfter(s, step);
    hide Do, Allowed, Current;
  }

  // ---- Landings ----

  /** Step `m` lands a mutation on the store's entry of `p`. */
  predicate Lands(states: seq<State>, steps: seq<Step>, m: nat, p: ProviderId)
    requires m < |steps| <= |states|
  {
    steps[m].Land? && Allowed(states[m], steps[m]) && states[m].pubs[steps[m].id].provider == p
  }

  function Landed(states: seq<State>, steps: seq<Step>, m: nat): Option<Catalog>
    requires m < |steps| <= |states| && steps[m].Land? && Allowed(states[m], steps[m])
  {
    Content(states[m].pubs[steps[m].id].persist)
  }

  /** The last step in `[i, j)` that lands on `p`, if there is one. */
  function LastLanding(states: seq<State>, steps: seq<Step>, i: nat, j: nat, p: ProviderId): (m: Option<nat>)
    requires j <= |steps| <= |states|
    ensures m.Some? ==> i <= m.value < j && Lands(states, steps, m.value, p)
    ensures forall n | i <= n < j && Lands(states, steps, n, p) :: m.Some? && n <= m.value
  {
    if j <= i then None
    else if Lands(states, steps, j - 1, p) then Some(j - 1)
    else LastLanding(states, steps, i, j - 1, p)
  }

  /** The store's entry changes only by landings: it is what the last one left, or what it was. */
  lemma {:induction false} StoreIsLastLanding(states: seq<State>, steps: seq<Step>, i: nat, j: nat, p: ProviderId)
    requires IsRun(states, steps) && i <= j < |states|
    ensures At(states[j].store, p) ==
            match LastLanding(states, steps, i, j, p)
            case None => At(states[i].store, p)
            case Some(m) => Landed(states, steps, m)
    decreases j
  {
    if i < j {
      StoreIsLastLanding(states, steps, i, j - 1, p);
      assert Moves(states, steps, j - 1);
      hide IsRun, Moves, Do, Allowed;
      StoreStep(states[j - 1], steps[j - 1], p);
    }
  }

  lemma StoreStep(s: State, step: Step, p: ProviderId)
    requires Allowed(s, step)
    ensures At(Do(s, step).store, p) ==
            if step.Land? && s.pubs[step.id].provider == p then Content(s.pubs[step.id].persist) else At(s.store, p)
  {
  }

  /** What is under way at `m` was under way at `i`, or started since, being current then. */
  lemma {:induction false} StartedSince(states: seq<State>, steps: seq<Step>, i: nat, m: nat, k: nat)
    requires IsRun(states, steps) && i <= m < |states| && k < |states[m].pubs| && states[m].pubs[k].stage.Storing?
    ensures || (k < |states[i].pubs| && states[i].pubs[k].stage.Storing?)
            || exists t | i <= t < m :: StartedAt(states, steps, t, k)
    decreases m
  {
    if i < m {
      hide StartedAt;
      if k < |states[m - 1].pubs| && states[m - 1].pubs[k].stage.Storing? {
        StartedSince(states, steps, i, m - 1, k);
      } else {
        JustStarted(states, steps, m - 1, k);
      }
    }
  }

  lemma JustStarted(states: seq<State>, steps: seq<Step>, t: nat, k: nat)
    requires IsRun(states, steps) && t < |steps| && k < |states[t + 1].pubs| && states[t + 1].pubs[k].stage.Storing?
    requires !(k < |states[t].pubs| && states[t].pubs[k].stage.Storing?)
    ensures StartedAt(states, steps, t, k)
  {
    assert Moves(states, steps, t);
    hide IsRun, Moves;
    StepStarts(states[t], steps[t], k);
  }

  lemma StepStarts(s: State, step: Step, k: nat)
    requires Allowed(s, step) && k < |Do(s, step).pubs| && Do(s, step).pubs[k].stage.Storing?
    requires !(k < |s.pubs| && s.pubs[k].stage.Storing?)
    ensures step == Start(k) && k < |s.pubs| && Current(s, s.pubs[k])
  {
    PublicationsAfter(s, step);
    hide Do, Allowed, Current;
  }

  predicate StartedAt(states: seq<State>, steps: seq<Step>, t: nat, k: nat)
    requires t < |steps| <= |states|
  {
    steps[t] == Start(k) && k < |states[t].pubs| && Current(states[t], states[t].pubs[k])
  }

  // ---- Restoring ----

  /** A restore: a refresh of a generation of a provider reads what is `stored`, and of that keeps its provider's `own`
      models; it queues its publication `id`, which starts. The first three are the steps of the run that do so. */
  datatype Restore = Restore(
    read: nat, queued: nat, started: nat,
    p: ProviderId, generation: nat, stored: Catalog, own: Catalog -> Catalog, id: PublicationId)

  /** The restore happens in this run, and its publication is published. */
  ghost predicate Restores(states: seq<State>, steps: seq<Step>, r: Restore) {
    && IsRun(states, steps) && r.read <= r.queued < r.started < |steps|
    && At(states[r.read].store, r.p) == Some(r.stored) && r.generation <= Generation(states[r.read], r.p)
    && steps[r.queued].Queue? && steps[r.queued].p == r.p && steps[r.queued].generation == r.generation
    && steps[r.queued].persist == Keep && steps[r.queued].update == Some(r.own(r.stored))
    && r.id == |states[r.queued].pubs|
    && steps[r.started] == Start(r.id) && r.id < |states[r.started + 1].pubs|
    && states[r.started + 1].pubs[r.id].stage.Published?
  }

  /** What restoring a provider's entry puts into memory. */
  function OwnOf(own: Catalog -> Catalog, entry: Option<Catalog>): Option<Catalog> {
    if entry.Some? then Some(own(entry.value)) else None
  }

  /** Memory holds what restoring the store's entry would put there. */
  predicate Agrees(s: State, p: ProviderId, own: Catalog -> Catalog) {
    At(s.memory, p) == OwnOf(own, At(s.store, p))
  }

  lemma {:induction false} RestoreRuns(states: seq<State>, steps: seq<Step>, r: Restore)
    requires Restores(states, steps, r)
    ensures r.id < |states[r.started].pubs| && states[r.started].pubs[r.id].stage.Queued?
    ensures states[r.started].pubs[r.id].provider == r.p && states[r.started].pubs[r.id].generation == r.generation
    ensures Current(states[r.started], states[r.started].pubs[r.id])
    ensures At(states[r.started + 1].memory, r.p) == Some(r.own(r.stored))
    ensures states[r.started + 1].store == states[r.started].store
  {
    assert Moves(states, steps, r.queued) && Moves(states, steps, r.started);
    PublicationsStay(states, steps, r.queued + 1, r.started, r.id);
  }

  /** After a restore is published, memory holds its provider's models of what the refresh read; it agrees with the store
      exactly if no mutation has landed since the read, or the last that did left the same models of the provider. */
  lemma {:induction false} RestoreAgreesIff(states: seq<State>, steps: seq<Step>, r: Restore)
    requires Restores(states, steps, r)
    ensures At(states[r.started + 1].memory, r.p) == Some(r.own(r.stored))
    ensures Agrees(states[r.started + 1], r.p, r.own) <==>
            match LastLanding(states, steps, r.read, r.started, r.p)
            case None => true
            case Some(m) => OwnOf(r.own, Landed(states, steps, m)) == Some(r.own(r.stored))
  {
    RestoreRuns(states, steps, r);
    StoreIsLastLanding(states, steps, r.read, r.started, r.p);
  }

  /** Memory and store hold the very same catalog exactly if what the refresh read, or the last mutation that has landed
      since, is the provider's models of what it read and nothing else. */
  lemma {:induction false} RestoreEqualsIff(states: seq<State>, steps: seq<Step>, r: Restore)
    requires Restores(states, steps, r)
    ensures At(states[r.started + 1].memory, r.p) == At(states[r.started + 1].store, r.p) <==>
            match LastLanding(states, steps, r.read, r.started, r.p)
            case None => r.stored == r.own(r.stored)
            case Some(m) => Landed(states, steps, m) == Some(r.own(r.stored))
  {
    RestoreRuns(states, steps, r);
    StoreIsLastLanding(states, steps, r.read, r.started, r.p);
  }

  /** What lands between a read and its restore was queued before the restore, and was under way at the read or is of
      the refresh's own generation and started since. */
  lemma {:induction false} LandingsMeanwhile(states: seq<State>, steps: seq<Step>, r: Restore, m: nat)
    requires Restores(states, steps, r) && r.read <= m < r.started && Lands(states, steps, m, r.p)
    ensures var k := steps[m].id;
      && k < r.id && k < |states[r.started].pubs| && states[r.started].pubs[k].provider == r.p
      && (|| (k < |states[r.read].pubs| && states[r.read].pubs[k].stage.Storing?)
          || (states[r.started].pubs[k].generation == r.generation
              && (k < |states[r.read].pubs| ==> states[r.read].pubs[k].stage.Queued?)))
  {
    var i, j, k := r.read, r.started, steps[m].id;
    RestoreRuns(states, steps, r);
    PublicationsStay(states, steps, m, j, k);
    BeforeRestore(states, steps, m, j, k, r.id);
    StartedSince(states, steps, i, m, k);
    if !(k < |states[i].pubs| && states[i].pubs[k].stage.Storing?) {
      var t :| i <= t < m && StartedAt(states, steps, t, k);
      PublicationsStay(states, steps, t, j, k);
      GenerationsGrow(states, steps, i, t, r.p);
      GenerationsGrow(states, steps, t, j, r.p);
      assert Moves(states, steps, t);
      if k < |states[i].pubs| { PublicationsStay(states, steps, i, t, k); }
    }
  }

  /** A publication that is under way while a later one of its provider waits was queued before that. */
  lemma {:induction false} BeforeRestore(states: seq<State>, steps: seq<Step>, m: nat, j: nat, k: nat, id: nat)
    requires IsRun(states, steps) && m <= j < |states| && k < |states[m].pubs| && UnderWay(states[m].pubs[k])
    requires id < |states[j].pubs| && states[j].pubs[id].stage.Queued?
    requires k < |states[j].pubs| && states[j].pubs[k].provider == states[j].pubs[id].provider
    ensures k < id
  {
    RunKeeps(states, steps, m);
    PublicationsStay(states, steps, m, j, k);
    if id < k { PublicationsStay(states, steps, m, j, id); }
  }

  /** Every publication of the refresh queued before the restore had settled by the read: the refresh awaits its own. */
  ghost predicate AwaitsItsOwn(states: seq<State>, r: Restore)
    requires r.read <= r.queued < |states|
  {
    forall k | 0 <= k < |states[r.queued].pubs| && states[r.queued].pubs[k].provider == r.p
               && states[r.queued].pubs[k].generation == r.generation ::
      k < |states[r.read].pubs| && Settled(states[r.read].pubs[k])
  }

  /** Then what lands between the read and the restore is the one mutation that was under way at the read. */
  lemma {:induction false} OnlyOneLanding(states: seq<State>, steps: seq<Step>, r: Restore, m: nat, n: nat)
    requires Restores(states, steps, r) && AwaitsItsOwn(states, r)
    requires r.read <= m <= n < r.started && Lands(states, steps, m, r.p) && Lands(states, steps, n, r.p)
    ensures m == n && steps[m].id < |states[r.read].pubs| && states[r.read].pubs[steps[m].id].stage.Storing?
  {
    LandsUnderWay(states, steps, r, m);
    LandsUnderWay(states, steps, r, n);
    RunKeeps(states, steps, r.read);
    var k := steps[m].id;
    PublicationsStay(states, steps, r.read, m, k);
    PublicationsStay(states, steps, r.read, n, steps[n].id);
    MutationsDoNotOverlap(states[r.read].pubs, k, steps[n].id);
    if m < n {
      assert Moves(states, steps, m);
      PublicationsStay(states, steps, m + 1, n, k);
    }
  }

  lemma {:induction false} LandsUnderWay(states: seq<State>, steps: seq<Step>, r: Restore, m: nat)
    requires Restores(states, steps, r) && AwaitsItsOwn(states, r)
    requires r.read <= m < r.started && Lands(states, steps, m, r.p)
    ensures steps[m].id < |states[r.read].pubs| && states[r.read].pubs[steps[m].id].stage.Storing?
    ensures states[r.read].pubs[steps[m].id].provider == r.p
  {
    var k := steps[m].id;
    LandingsMeanwhile(states, steps, r, m);
    assert Moves(states, steps, r.queued);
    PublicationsStay(states, steps, r.queued, r.started, k);
    if k < |states[r.read].pubs| { PublicationsStay(states, steps, r.read, r.started, k); }
  }

  /** If the refresh awaits its own publications, a restore agrees with the store if and only if no mutation that was
      under way at the read lands other models of the provider before the restore runs. */
  lemma {:induction false} AwaitingRestoreAgreesIff(states: seq<State>, steps: seq<Step>, r: Restore)
    requires Restores(states, steps, r) && AwaitsItsOwn(states, r)
    ensures Agrees(states[r.started + 1], r.p, r.own) <==>
            forall m | r.read <= m < r.started && Lands(states, steps, m, r.p) ::
              OwnOf(r.own, Landed(states, steps, m)) == Some(r.own(r.stored))
    ensures forall m | r.read <= m < r.started && Lands(states, steps, m, r.p) ::
              steps[m].id < |states[r.read].pubs| && states[r.read].pubs[steps[m].id].stage.Storing?
  {
    RestoreAgreesIff(states, steps, r);
    var last := LastLanding(states, steps, r.read, r.started, r.p);
    forall m | r.read <= m < r.started && Lands(states, steps, m, r.p)
      ensures last == Some(m) && steps[m].id < |states[r.read].pubs|
              && states[r.read].pubs[steps[m].id].stage.Storing?
    {
      OnlyOneLanding(states, steps, r, m, last.value);
    }
  }

  /** A restore that does not agree with the store was overtaken by a mutation of another catalog, whatever else landed. */
  lemma {:induction false} LaggingRestoreWasOvertaken(states: seq<State>, steps: seq<Step>, r: Restore)
    requires Restores(states, steps, r) && !Agrees(states[r.started + 1], r.p, r.own)
    ensures exists m | r.read <= m < r.started && Lands(states, steps, m, r.p) ::
              Landed(states, steps, m) != Some(r.stored)
  {
    RestoreAgreesIff(states, steps, r);
  }

  /** A restore agrees with the store if no publication of the provider was unsettled at the read and the refresh
      queues none of its own before the restore. */
  lemma {:induction false} QuietRestoreAgrees(states: seq<State>, steps: seq<Step>, r: Restore)
    requires Restores(states, steps, r) && r.p !in states[r.read].chains
    requires forall k | |states[r.read].pubs| <= k < |states[r.queued].pubs| && states[r.queued].pubs[k].provider == r.p ::
               states[r.queued].pubs[k].generation != r.generation
    ensures At(states[r.started + 1].store, r.p) == Some(r.stored) && Agrees(states[r.started + 1], r.p, r.own)
  {
    RestoreRuns(states, steps, r);
    StoreIsLastLanding(states, steps, r.read, r.started, r.p);
    RunKeeps(states, steps, r.read);
    var last := LastLanding(states, steps, r.read, r.started, r.p);
    if last.Some? {
      var k := steps[last.value].id;
      LandingsMeanwhile(states, steps, r, last.value);
      assert Moves(states, steps, r.queued);
      PublicationsStay(states, steps, r.queued, r.started, k);
      if k < |states[r.read].pubs| { PublicationsStay(states, steps, r.read, r.started, k); }
    }
  }

  // ---- Restores that lag, and one overtaken twice ----

  lemma Then(states: seq<State>, steps: seq<Step>, step: Step) returns (ws: seq<State>, ss: seq<Step>)
    requires IsRun(states, steps) && Allowed(states[|steps|], step)
    ensures IsRun(ws, ss) && |ws| == |ss| + 1
    ensures ss == steps + [step] && ws == states + [Do(states[|steps|], step)]
  {
    hide Do, Allowed;
    ws, ss := states + [Do(states[|steps|], step)], steps + [step];
    assert ws[0] == states[0];
    forall i | 0 <= i < |ss| ensures Moves(ws, ss, i) {
      if i < |steps| { assert Moves(states, steps, i); }
    }
  }

  /** Every stored model is the provider's own. */
  function All(c: Catalog): Catalog { c }

  function Pub(generation: nat, controller: nat, persist: Persist, c: Catalog, after: Option<PublicationId>, stage: Stage)
    : Publication
  {
    Publication(0, generation, {OfRefresh(controller)}, persist, Some(c), after, stage)
  }

  function Queueing0(generation: nat, controller: nat, persist: Persist, c: Catalog): Step {
    Queue(0, generation, {OfRefresh(controller)}, persist, Some(c))
  }

  /** A refresh of provider 0, over a store that holds `a`, has queued a write of `b`. */
  lemma OneQueued(a: Catalog, b: Catalog) returns (states: seq<State>, steps: seq<Step>)
    ensures IsRun(states, steps) && |states| == |steps| + 1 == 3
    ensures states[2] ==
      State(map[0 := 1], map[0 := 0], map[0 := 0], {}, 1, [Pub(1, 0, Write(b), b, None, Queued)], map[0 := a], map[])
  {
    states, steps := [Initial(map[0 := a])], [];
    states, steps := Then(states, steps, Begin(0));
    states, steps := Then(states, steps, Queueing0(1, 0, Write(b), b));
  }

  /** Its write is under way when a newer refresh begins. */
  lemma Overtaking(a: Catalog, b: Catalog) returns (states: seq<State>, steps: seq<Step>)
    ensures IsRun(states, steps) && |states| == |steps| + 1 == 5
    ensures states[4] ==
      State(map[0 := 2], map[0 := 1], map[0 := 0], {OfRefresh(0)}, 2,
            [Pub(1, 0, Write(b), b, None, Storing)], map[0 := a], map[])
  {
    hide IsRun;
    states, steps := OneQueued(a, b);
    states, steps := Then(states, steps, Start(0));
    states, steps := Then(states, steps, Begin(0));
  }

  /** A refresh that restores what it read while a superseded one was still writing leaves memory behind the store. */
  lemma RestoreMayLag(a: Catalog, b: Catalog) returns (states: seq<State>, steps: seq<Step>)
    ensures var r := Restore(4, 4, 7, 0, 2, a, All, 1); Restores(states, steps, r) && AwaitsItsOwn(states, r)
    ensures states[8].memory == map[0 := a] && states[8].store == map[0 := b]
  {
    states, steps := Overtaking(a, b);
    states, steps := Then(states, steps, Queueing0(2, 1, Keep, a));
    states, steps := Then(states, steps, Land(0));
    states, steps := Then(states, steps, Resume(0));
    states, steps := Then(states, steps, Start(1));
  }

  /** A refresh that does not await its own publications: it reads `a` with writes of `b` and then `a` still queued. */
  lemma ThreeQueued(a: Catalog, b: Catalog) returns (states: seq<State>, steps: seq<Step>)
    ensures IsRun(states, steps) && |states| == |steps| + 1 == 5 && steps[3] == Queueing0(1, 0, Keep, a)
    ensures |states[3].pubs| == 2 && states[3].store == map[0 := a] && Generation(states[3], 0) == 1
    ensures states[4] ==
      State(map[0 := 1], map[0 := 0], map[0 := 2], {}, 1,
            [Pub(1, 0, Write(b), b, None, Queued), Pub(1, 0, Write(a), a, Some(0), Queued), Pub(1, 0, Keep, a, Some(1), Queued)],
            map[0 := a], map[])
  {
    hide IsRun;
    states, steps := OneQueued(a, b);
    states, steps := Then(states, steps, Queueing0(1, 0, Write(a), a));
    states, steps := Then(states, steps, Queueing0(1, 0, Keep, a));
  }

  lemma FirstPublished(a: Catalog, b: Catalog) returns (states: seq<State>, steps: seq<Step>)
    ensures IsRun(states, steps) && |states| == |steps| + 1 == 8 && steps[3] == Queueing0(1, 0, Keep, a) && steps[5] == Land(0)
    ensures |states[3].pubs| == 2 && states[3].store == map[0 := a] && Generation(states[3], 0) == 1
    ensures states[5].pubs == [Pub(1, 0, Write(b), b, None, Storing), Pub(1, 0, Write(a), a, Some(0), Queued),
                               Pub(1, 0, Keep, a, Some(1), Queued)]
    ensures states[7] ==
      State(map[0 := 1], map[0 := 0], map[0 := 2], {}, 1,
            [Pub(1, 0, Write(b), b, None, Published), Pub(1, 0, Write(a), a, Some(0), Queued),
             Pub(1, 0, Keep, a, Some(1), Queued)],
            map[0 := b], map[0 := b])
  {
    hide IsRun;
    states, steps := ThreeQueued(a, b);
    states, steps := Then(states, steps, Start(0));
    states, steps := Then(states, steps, Land(0));
    states, steps := Then(states, steps, Resume(0));
  }

  /** Why the last landing decides, and not whether some landing differs: here one does, and yet memory agrees. */
  lemma OvertakenAndBack(a: Catalog, b: Catalog) returns (states: seq<State>, steps: seq<Step>)
    ensures Restores(states, steps, Restore(3, 3, 10, 0, 1, a, All, 2))
    ensures Lands(states, steps, 5, 0) && Landed(states, steps, 5) == Some(b)
    ensures states[11].memory == map[0 := a] && states[11].store == map[0 := a]
  {
    states, steps := FirstPublished(a, b);
    states, steps := Then(states, steps, Start(1));
    states, steps := Then(states, steps, Land(1));
    states, steps := Then(states, steps, Resume(1));
    states, steps := Then(states, steps, Start(2));
  }
}
