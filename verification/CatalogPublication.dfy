/**
 Publishing model catalogs: refreshes race with supersession, store writes and in-memory updates.
 A step ends where the code awaits: queueing, the start of a publication once its turn has come, the
 moment a store mutation lands, and the moment the publication resumes after it.
 */
module CatalogPublication {
  import opened Options

  type ProviderId = nat
  type PublicationId = nat

  /** A catalog matters here only by which one it is. */
  datatype Catalog = Catalog(id: nat)

  /** A refresh heeds its caller's signal and its own controller's. */
  datatype Signal = OfCaller(id: nat) | OfRefresh(id: nat)

  /** What a publication does to the store: nothing, delete the entry, or write a catalog. */
  datatype Persist = Keep | Delete | Write(catalog: Catalog)

  datatype Stage = Queued | Storing | Stored | Published | Refused | Failed

  /** `after` is the publication it waits for; `update` the catalog its in-memory update sets, if it has one. */
  datatype Publication = Publication(
    provider: ProviderId, generation: nat, signals: set<Signal>,
    persist: Persist, update: Option<Catalog>, after: Option<PublicationId>, stage: Stage)

  predicate Settled(p: Publication) { p.stage.Published? || p.stage.Refused? || p.stage.Failed? }

  predicate UnderWay(p: Publication) { p.stage.Storing? || p.stage.Stored? }

  /** `pubs` is every publication ever queued. */
  datatype State = State(
    generations: map<ProviderId, nat>, controllers: map<ProviderId, nat>, chains: map<ProviderId, PublicationId>,
    aborted: set<Signal>, nextController: nat,
    pubs: seq<Publication>, store: map<ProviderId, Catalog>, memory: map<ProviderId, Catalog>)

  function At<T>(m: map<ProviderId, T>, p: ProviderId): Option<T> { if p in m then Some(m[p]) else None }

  function Generation(s: State, p: ProviderId): nat { if p in s.generations then s.generations[p] else 0 }

  /** Whether a publication may still take effect. */
  predicate Current(s: State, p: Publication) {
    p.signals !! s.aborted && p.generation == Generation(s, p.provider)
  }

  /** What a mutation leaves as the store's entry. */
  function Content(persist: Persist): Option<Catalog>
    requires !persist.Keep?
  {
    if persist.Write? then Some(persist.catalog) else None
  }

  function Put(m: map<ProviderId, Catalog>, p: ProviderId, c: Option<Catalog>): map<ProviderId, Catalog> {
    if c.Some? then m[p := c.value] else m - {p}
  }

  datatype Step =
    | Supersede(p: ProviderId) | Begin(p: ProviderId)
    | Queue(p: ProviderId, generation: nat, signals: set<Signal>, persist: Persist, update: Option<Catalog>)
    | Start(id: PublicationId) | Land(id: PublicationId) | Resume(id: PublicationId) | Fail(id: PublicationId)
    | Abort(caller: nat) | End(p: ProviderId, controller: nat)

  /** When a step can happen: a publication starts when the one it waits for has settled. */
  predicate Allowed(s: State, step: Step) {
    match step
    case Queue(p, generation, _, _, _) => generation <= Generation(s, p)
    case Start(id) =>
      && id < |s.pubs| && s.pubs[id].stage.Queued?
      && (s.pubs[id].after.Some? ==> s.pubs[id].after.value < |s.pubs| && Settled(s.pubs[s.pubs[id].after.value]))
    case Land(id) => id < |s.pubs| && s.pubs[id].stage.Storing? && !s.pubs[id].persist.Keep?
    case Resume(id) => id < |s.pubs| && s.pubs[id].stage.Stored?
    case Fail(id) => id < |s.pubs| && UnderWay(s.pubs[id])
    case _ => true
  }

  function Superseded(s: State, p: ProviderId): State {
    s.(generations := s.generations[p := Generation(s, p) + 1],
       controllers := s.controllers - {p},
       aborted := if p in s.controllers then s.aborted + {OfRefresh(s.controllers[p])} else s.aborted)
  }

  function Staged(s: State, id: PublicationId, stage: Stage): State
    requires id < |s.pubs|
  {
    s.(pubs := s.pubs[id := s.pubs[id].(stage := stage)])
  }

  /** A settled publication leaves the chain if it is still the last of its provider. */
  function Finished(s: State, id: PublicationId, stage: Stage): State
    requires id < |s.pubs|
  {
    var p := s.pubs[id].provider;
    Staged(s, id, stage).(chains := if At(s.chains, p) == Some(id) then s.chains - {p} else s.chains)
  }

  /** The in-memory update, and the publication returns true. */
  function Updated(s: State, id: PublicationId): State
    requires id < |s.pubs|
  {
    var p := s.pubs[id];
    Finished(s.(memory := if p.update.Some? then s.memory[p.provider := p.update.value] else s.memory), id, Published)
  }

  function Do(s: State, step: Step): State
    requires Allowed(s, step)
  {
    match step
    case Supersede(p) => Superseded(s, p)
    case Begin(p) =>
      var t := Superseded(s, p);
      t.(controllers := t.controllers[p := t.nextController], nextController := t.nextController + 1)
    case Queue(p, generation, signals, persist, update) =>
      s.(pubs := s.pubs + [Publication(p, generation, signals, persist, update, At(s.chains, p), Queued)],
         chains := s.chains[p := |s.pubs|])
    case Start(id) =>
      if !Current(s, s.pubs[id]) then Finished(s, id, Refused)
      else if s.pubs[id].persist.Keep? then Updated(s, id)
      else Staged(s, id, Storing)
    case Land(id) =>
      Staged(s.(store := Put(s.store, s.pubs[id].provider, Content(s.pubs[id].persist))), id, Stored)
    case Resume(id) => if Current(s, s.pubs[id]) then Updated(s, id) else Finished(s, id, Refused)
    case Fail(id) => Finished(s, id, Failed)
    case Abort(caller) => s.(aborted := s.aborted + {OfCaller(caller)})
    case End(p, controller) =>
      if At(s.controllers, p) == Some(controller) then s.(controllers := s.controllers - {p}) else s
  }

  /** A registry before its first refresh, over a store with these entries. */
  function Initial(store: map<ProviderId, Catalog>): State {
    State(map[], map[], map[], {}, 0, [], store, map[])
  }

  // ---- Order ----

  /** Publications of a provider take their turns: none starts before those queued earlier have settled. */
  predicate InTurn(pubs: seq<Publication>) {
    forall a, b | 0 <= a < b < |pubs| && pubs[a].provider == pubs[b].provider && !pubs[b].stage.Queued? :: Settled(pubs[a])
  }

  /** A queued publication waits for the last one before it, unless all before it have settled. */
  predicate Chained(pubs: seq<Publication>) {
    forall b | 0 <= b < |pubs| && pubs[b].stage.Queued? ::
      match pubs[b].after
      case None => forall a | 0 <= a < b && pubs[a].provider == pubs[b].provider :: Settled(pubs[a])
      case Some(q) =>
        && q < b && pubs[q].provider == pubs[b].provider
        && forall a | q < a < b :: pubs[a].provider != pubs[b].provider
  }

  /** The chain entry of a provider is its last publication; without one, all have settled. */
  predicate Tails(pubs: seq<Publication>, chains: map<ProviderId, PublicationId>) {
    && (forall p | p in chains ::
      && chains[p] < |pubs| && pubs[chains[p]].provider == p
      && forall a | chains[p] < a < |pubs| :: pubs[a].provider != p)
    && (forall a | 0 <= a < |pubs| && pubs[a].provider !in chains :: Settled(pubs[a]))
  }

  /** A mutation that has landed and whose publication has not resumed is still what the store holds. */
  predicate LandedHolds(pubs: seq<Publication>, store: map<ProviderId, Catalog>) {
    forall i | 0 <= i < |pubs| && pubs[i].stage.Stored? ::
      !pubs[i].persist.Keep? && At(store, pubs[i].provider) == Content(pubs[i].persist)
  }

  predicate Storable(pubs: seq<Publication>) {
    forall i | 0 <= i < |pubs| && UnderWay(pubs[i]) :: !pubs[i].persist.Keep?
  }

  predicate Inv(s: State) {
    && InTurn(s.pubs) && Chained(s.pubs) && Tails(s.pubs, s.chains)
    && Storable(s.pubs) && LandedHolds(s.pubs, s.store)
    && (forall p | p in s.controllers :: s.controllers[p] < s.nextController)
    && (forall c | c in s.aborted && c.OfRefresh? :: c.id < s.nextController)
    && (forall i | 0 <= i < |s.pubs| :: s.pubs[i].generation <= Generation(s, s.pubs[i].provider))
  }

  /** At most one store mutation of a provider is under way. */
  lemma MutationsDoNotOverlap(pubs: seq<Publication>, a: nat, b: nat)
    requires InTurn(pubs) && a < |pubs| && b < |pubs|
    requires pubs[a].provider == pubs[b].provider && UnderWay(pubs[a]) && UnderWay(pubs[b])
    ensures a == b
  {
  }

  /** What a publication waits for has settled only if everything queued before it has. */
  lemma TurnComes(pubs: seq<Publication>, b: nat)
    requires InTurn(pubs) && Chained(pubs) && b < |pubs| && pubs[b].stage.Queued?
    requires pubs[b].after.Some? ==> pubs[b].after.value < |pubs| && Settled(pubs[pubs[b].after.value])
    ensures forall a | 0 <= a < b && pubs[a].provider == pubs[b].provider :: Settled(pubs[a])
  {
    if pubs[b].after.Some? {
      var q := pubs[b].after.value;
      forall a | 0 <= a < b && pubs[a].provider == pubs[b].provider ensures Settled(pubs[a]) {
        if a < q { assert !pubs[q].stage.Queued?; }
      }
    }
  }

  /** One more publication, queued behind the last one of its provider. */
  lemma Queueing(pubs: seq<Publication>, chains: map<ProviderId, PublicationId>, pub: Publication)
    requires InTurn(pubs) && Chained(pubs) && Tails(pubs, chains)
    requires pub.stage.Queued? && pub.after == At(chains, pub.provider)
    ensures InTurn(pubs + [pub]) && Chained(pubs + [pub]) && Tails(pubs + [pub], chains[pub.provider := |pubs|])
  {
  }

  lemma StageChanges(
    pubs: seq<Publication>, b: nat, stage: Stage,
    chains: map<ProviderId, PublicationId>, after: map<ProviderId, PublicationId>)
    requires InTurn(pubs) && Chained(pubs) && Tails(pubs, chains) && b < |pubs| && !Settled(pubs[b])
    requires !stage.Queued?
    requires forall a | 0 <= a < b && pubs[a].provider == pubs[b].provider :: Settled(pubs[a])
    requires after == chains ||
             (!stage.Storing? && !stage.Stored? && At(chains, pubs[b].provider) == Some(b)
              && after == chains - {pubs[b].provider})
    ensures var ps := pubs[b := pubs[b].(stage := stage)]; InTurn(ps) && Chained(ps) && Tails(ps, after)
  {
    var ps := pubs[b := pubs[b].(stage := stage)];
    assert Chained(ps) by {
      hide Tails;
    }
    assert Tails(ps, after) by {
      hide InTurn, Chained;
    }
    hide Tails, Chained;
  }
}
