/** The models registry: its maps, the queued publications and the store they write, as runs of the protocol. */
module CatalogModels {
  import opened CatalogPublication
  import opened CatalogRuns
  import opened Options

  class ModelsImpl {
    var refreshGenerations: map<ProviderId, nat>
    var refreshControllers: map<ProviderId, nat>
    var publicationChains: map<ProviderId, PublicationId>
    var aborted: set<Signal>
    var nextController: nat

    /** Every publication ever queued, the store's entries, and the providers' in-memory catalogs. */
    var publications: seq<Publication>
    var store: map<ProviderId, Catalog>
    var dynamicModels: map<ProviderId, Catalog>

    // History: the run that led here.
    ghost var states: seq<State>
    ghost var steps: seq<Step>

    ghost function Now(): State
      reads this
    {
      State(refreshGenerations, refreshControllers, publicationChains, aborted, nextController,
            publications, store, dynamicModels)
    }

    /** The registry is at the end of a run of the protocol. */
    ghost predicate Valid()
      reads this
    {
      IsRun(states, steps) && states[|steps|] == Now()
    }

    /** The registry has made this one step. */
    twostate predicate Made(step: Step)
      requires old(Valid())
      reads this
    {
      && Allowed(old(Now()), step) && Now() == Do(old(Now()), step)
      && steps == old(steps) + [step] && states == old(states) + [Now()]
    }

    predicate IsCurrent(id: PublicationId)
      requires id < |publications|
      reads this
    {
      && publications[id].signals !! aborted
      && publications[id].generation ==
         if publications[id].provider in refreshGenerations then refreshGenerations[publications[id].provider] else 0
    }

    constructor (store: map<ProviderId, Catalog>)
      ensures Valid() && steps == [] && Now() == Initial(store)
    {
      refreshGenerations, refreshControllers, publicationChains := map[], map[], map[];
      aborted, nextController := {}, 0;
      publications, this.store, dynamicModels := [], store, map[];
      states, steps := [Initial(store)], [];
    }

    /** Adds the step just made to the history. */
    ghost method Record(step: Step, before: State)
      requires IsRun(states, steps) && states[|steps|] == before && Allowed(before, step) && Now() == Do(before, step)
      modifies this`states, this`steps
      ensures Valid() && steps == old(steps) + [step] && states == old(states) + [Now()]
    {
      var ss, ts := Then(states, steps, step);
      states, steps := ss, ts;
    }

    /** What holds of every run holds here. */
    lemma Reachable()
      requires Valid()
      ensures Inv(Now())
    {
      hide Inv, IsRun;
      assert |states| == |steps| + 1 by { RunLength(states, steps); }
      RunKeeps(states, steps, |steps|);
    }

    /** Ends the refresh in progress: its generation is over, its controller aborted. */
    method SupersedeProviderRefresh(p: ProviderId) returns (generation: nat)
      requires Valid()
      modifies this
      ensures Valid() && Made(Supersede(p))
      ensures generation == Generation(old(Now()), p) + 1 == Generation(Now(), p)
      ensures p in old(refreshControllers) ==> OfRefresh(old(refreshControllers)[p]) in aborted
      ensures forall i | 0 <= i < |publications| && publications[i].provider == p :: !Current(Now(), publications[i])
    {
      hide IsRun;
      Reachable();
      ghost var before := Now();
      generation := Supersede0(p);
      Record(Supersede(p), before);
    }

    method Supersede0(p: ProviderId) returns (generation: nat)
      modifies this`refreshGenerations, this`refreshControllers, this`aborted
      ensures Now() == Superseded(old(Now()), p) && generation == Generation(Now(), p)
    {
      generation := (if p in refreshGenerations then refreshGenerations[p] else 0) + 1;
      refreshGenerations := refreshGenerations[p := generation];
      if p in refreshControllers {
        var previous := refreshControllers[p];
        refreshControllers := refreshControllers - {p};
        aborted := aborted + {OfRefresh(previous)};
      }
    }

    method BeginProviderRefresh(p: ProviderId) returns (generation: nat, controller: nat)
      requires Valid()
      modifies this
      ensures Valid() && Made(Begin(p))
      ensures generation == Generation(old(Now()), p) + 1 == Generation(Now(), p)
      ensures At(refreshControllers, p) == Some(controller) && OfRefresh(controller) !in aborted
      ensures forall i | 0 <= i < |publications| && publications[i].provider == p :: !Current(Now(), publications[i])
    {
      hide IsRun;
      Reachable();
      ghost var before := Now();
      generation := Supersede0(p);
      controller := nextController;
      nextController := nextController + 1;
      refreshControllers := refreshControllers[p := controller];
      Record(Begin(p), before);
    }

    /** Queues a publication behind the last one of its provider. */
    method PublishProviderModels(
      p: ProviderId, generation: nat, signals: set<Signal>, persist: Persist, update: Option<Catalog>)
      returns (id: PublicationId)
      requires Valid() && generation <= Generation(Now(), p)
      modifies this
      ensures Valid() && Made(Queue(p, generation, signals, persist, update))
      ensures id == |old(publications)| && At(publicationChains, p) == Some(id)
    {
      hide IsRun;
      ghost var before := Now();
      id := |publications|;
      publications := publications +
        [Publication(p, generation, signals, persist, update, At(publicationChains, p), Queued)];
      publicationChains := publicationChains[p := id];
      Record(Queue(p, generation, signals, persist, update), before);
    }

    /** A publication has settled: it leaves the chain if it is still the last. */
    method Settle(id: PublicationId, stage: Stage)
      requires id < |publications|
      modifies this`publications, this`publicationChains
      ensures Now() == Finished(old(Now()), id, stage)
    {
      var p := publications[id].provider;
      publications := publications[id := publications[id].(stage := stage)];
      if p in publicationChains && publicationChains[p] == id {
        publicationChains := publicationChains - {p};
      }
    }

    method Update(id: PublicationId)
      requires id < |publications|
      modifies this`publications, this`publicationChains, this`dynamicModels
      ensures Now() == Updated(old(Now()), id)
    {
      var pub := publications[id];
      if pub.update.Some? { dynamicModels := dynamicModels[pub.provider := pub.update.value]; }
      Settle(id, Published);
    }

    /** What the publication waited for has settled: it is refused if superseded or aborted, starts its store mutation,
        or, having none, updates the catalog in memory at once. */
    method StartPublication(id: PublicationId)
      requires Valid() && Allowed(Now(), Start(id))
      modifies this
      ensures Valid() && Made(Start(id))
      ensures publications[id].stage ==
              if !Current(old(Now()), old(publications)[id]) then Refused
              else if old(publications)[id].persist.Keep? then Published else Storing
    {
      hide IsRun;
      ghost var before := Now();
      if !IsCurrent(id) {
        Settle(id, Refused);
      } else if publications[id].persist.Keep? {
        Update(id);
      } else {
        publications := publications[id := publications[id].(stage := Storing)];
      }
      Record(Start(id), before);
    }

    /** The store makes the mutation; the publication has yet to resume. */
    method LandMutation(id: PublicationId)
      requires Valid() && Allowed(Now(), Land(id))
      modifies this
      ensures Valid() && Made(Land(id))
      ensures At(store, publications[id].provider) == Content(publications[id].persist)
    {
      hide IsRun;
      ghost var before := Now();
      var pub := publications[id];
      if pub.persist.Write? {
        store := store[pub.provider := pub.persist.catalog];
      } else {
        store := store - {pub.provider};
      }
      publications := publications[id := pub.(stage := Stored)];
      Record(Land(id), before);
    }

    /** The publication resumes: memory follows only while its generation is current and its signals are not raised.
        If it then succeeds and sets in memory what it stored, both hold that catalog, whatever came in between. */
    method FinishStoring(id: PublicationId)
      requires Valid() && Allowed(Now(), Resume(id))
      modifies this
      ensures Valid() && Made(Resume(id)) && store == old(store)
      ensures publications[id].stage == if Current(old(Now()), old(publications)[id]) then Published else Refused
      ensures var pub := publications[id];
        pub.stage.Published? && pub.persist.Write? && pub.update == Some(pub.persist.catalog) ==>
        At(store, pub.provider) == At(dynamicModels, pub.provider) == Some(pub.persist.catalog)
    {
      hide IsRun, InTurn, Chained, Tails;
      Reachable();
      ghost var before := Now();
      if IsCurrent(id) {
        Update(id);
      } else {
        Settle(id, Refused);
      }
      Record(Resume(id), before);
    }

    /** The store failed, before or after it made the mutation. */
    method FailStoring(id: PublicationId)
      requires Valid() && Allowed(Now(), Fail(id))
      modifies this
      ensures Valid() && Made(Fail(id)) && publications[id].stage.Failed?
      ensures store == old(store) && dynamicModels == old(dynamicModels)
    {
      hide IsRun;
      ghost var before := Now();
      Settle(id, Failed);
      Record(Fail(id), before);
    }

    /** What a refresh finds in the store before it restores it. */
    method ReadStored(p: ProviderId) returns (stored: Option<Catalog>)
      requires Valid()
      ensures stored == At(store, p)
    {
      stored := At(store, p);
    }

    /** A caller's signal is raised. */
    method AbortCaller(caller: nat)
      requires Valid()
      modifies this
      ensures Valid() && Made(Abort(caller))
      ensures forall i | 0 <= i < |publications| && OfCaller(caller) in publications[i].signals ::
                !Current(Now(), publications[i])
    {
      hide IsRun;
      ghost var before := Now();
      aborted := aborted + {OfCaller(caller)};
      Record(Abort(caller), before);
    }

    /** A refresh is over: its own controller is forgotten, and no other. */
    method EndRefresh(p: ProviderId, controller: nat)
      requires Valid()
      modifies this
      ensures Valid() && Made(End(p, controller))
      ensures refreshControllers ==
              if At(old(refreshControllers), p) == Some(controller) then old(refreshControllers) - {p}
              else old(refreshControllers)
    {
      hide IsRun;
      ghost var before := Now();
      if p in refreshControllers && refreshControllers[p] == controller {
        refreshControllers := refreshControllers - {p};
      }
      Record(End(p, controller), before);
    }
  }

  // ---- The catalog a provider offers ----

  datatype Model = Model(id: nat, version: nat)

  /** The first model with this id. */
  function Find(ms: seq<Model>, id: nat): Option<Model> {
    if ms == [] then None else if ms[0].id == id then Some(ms[0]) else Find(ms[1..], id)
  }

  /** The last model with this id. */
  function FindLast(ms: seq<Model>, id: nat): Option<Model> {
    if ms == [] then None
    else if ms[|ms| - 1].id == id then Some(ms[|ms| - 1]) else FindLast(ms[..|ms| - 1], id)
  }

  lemma {:induction false} FindReplaced(ms: seq<Model>, k: nat, m: Model, id: nat)
    requires k < |ms| && ms[k].id == m.id && forall j | 0 <= j < k :: ms[j].id != m.id
    ensures Find(ms[k := m], id) == if id == m.id then Some(m) else Find(ms, id)
  {
    if k > 0 {
      assert ms[k := m][1..] == ms[1..][k - 1 := m];
      FindReplaced(ms[1..], k - 1, m, id);
    } else {
      assert ms[k := m][1..] == ms[1..];
    }
  }

  lemma {:induction false} FindAppended(ms: seq<Model>, m: Model, id: nat)
    requires forall j | 0 <= j < |ms| :: ms[j].id != m.id
    ensures Find(ms + [m], id) == if id == m.id then Some(m) else Find(ms, id)
  {
    if ms == [] {
      assert (ms + [m])[1..] == [];
    } else {
      assert (ms + [m])[1..] == ms[1..] + [m];
      FindAppended(ms[1..], m, id);
    }
  }

  /** The models a provider offers: looking one up gives the last dynamic one, or else the first of the baseline. */
  method CurrentModels(baseline: seq<Model>, dynamic: seq<Model>) returns (merged: seq<Model>)
    ensures forall id :: Find(merged, id) ==
                         (if FindLast(dynamic, id).Some? then FindLast(dynamic, id) else Find(baseline, id))
  {
    merged := baseline;
    for i := 0 to |dynamic|
      invariant forall id :: Find(merged, id) ==
                             (if FindLast(dynamic[..i], id).Some? then FindLast(dynamic[..i], id) else Find(baseline, id))
    {
      var model := dynamic[i];
      assert dynamic[..i + 1][..i] == dynamic[..i];
      var k := 0;
      while k < |merged| && merged[k].id != model.id
        invariant 0 <= k <= |merged|
        invariant forall j | 0 <= j < k :: merged[j].id != model.id
      {
        k := k + 1;
      }
      ghost var before := merged;
      if k < |merged| { merged := merged[k := model]; } else { merged := merged + [model]; }
      forall id ensures Find(merged, id) == if id == model.id then Some(model) else Find(before, id) {
        if k < |before| { FindReplaced(before, k, model, id); } else { FindAppended(before, model, id); }
      }
    }
    assert dynamic[..|dynamic|] == dynamic;
  }
}
