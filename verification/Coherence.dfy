/**
 Write-through coherence: whatever loaders, expiries, sweeps and writers do, a cached
 configuration is the source's current one, except while a committed write for that key
 still has to be published.
 */
module Coherence {
  import opened Wrappers
  import opened ConfigTypes
  import opened Strconv
  import opened CacheModel
  import CacheRuns
  import opened LoaderProtocol

  predicate Current(source: map<CacheKey, ContainerConfig>, key: CacheKey, config: ContainerConfig) {
    key in source && source[key] == config
  }

  /** The configuration is the source's, or a committed write for the key is still unpublished. */
  predicate Justified(s: System, key: CacheKey, config: ContainerConfig) {
    key in s.pending || Current(s.source, key, config)
  }

  predicate Coherent(s: System) {
    forall key :: key in s.cache.entries ==> Justified(s, key, s.cache.entries[key].config)
  }

  predicate WritesAreCommitted(s: System) {
    forall key :: key in s.pending ==>
      match s.pending[key]
      case Put(config) => Current(s.source, key, config)
      case Remove => key !in s.source
  }

  predicate VersionIsMutationCount(s: System) {
    s.cache.version == Advanced(0, s.history.mutations)
  }

  /** What a leader would put in the cache if its fill landed now. */
  function Held(f: Flight, id: nat): Option<ContainerConfig> {
    if id in f.loaders && id in f.calls && f.loaders[id].phase.Leading? && f.loaders[id].phase.lead.Window? then
      match f.loaders[id].phase.lead.stage
      case SourceAnswered(answer) => if answer.err.None? then Some(answer.config) else None
      case Filling => Some(f.calls[id].outcome.config)
      case _ => None
    else None
  }

  predicate TokenMatches(token: string, readAt: nat, mutations: nat) {
    readAt <= mutations && (token != "" ==> token == Token(Advanced(0, readAt)))
  }

  /** A leader's token names the state it read, and what it holds is justified while nothing mutated the cache since. */
  predicate LeadIsSound(s: System, id: nat)
    requires id in s.flight.loaders && s.flight.loaders[id].phase.Leading?
  {
    var Loader(key, phase) := s.flight.loaders[id];
    match phase.lead
    case VersionedCheck(token, readAt, _) => TokenMatches(token, readAt, s.history.mutations)
    case VersionedRecheck(token, readAt) => TokenMatches(token, readAt, s.history.mutations)
    case Window(token, readAt, _) =>
      && TokenMatches(token, readAt, s.history.mutations)
      && (Held(s.flight, id).Some? && readAt == s.history.mutations ==> Justified(s, key, Held(s.flight, id).value))
    case _ => true
  }

  predicate LeadsAreSound(s: System) {
    forall id :: id in s.flight.loaders && s.flight.loaders[id].phase.Leading? ==> LeadIsSound(s, id)
  }

  predicate Inv(s: System) {
    && SingleFlight(s.flight)
    && Coherent(s)
    && WritesAreCommitted(s)
    && VersionIsMutationCount(s)
    && LeadsAreSound(s)
  }

  /** A fill is attempted before the counter has gone round since the leader's read. */
  predicate WithinCounterRange(s: System, l: Label)
    requires Enabled(s, l)
  {
    l.TryFill? ==> s.history.mutations - s.flight.loaders[l.id].phase.lead.readAt < TWO_TO_64
  }

  /** A landing fill means that the leader's read is still the latest mutation. */
  lemma LandingMeansUndisturbed(s: System, token: string, readAt: nat)
    requires VersionIsMutationCount(s) && TokenMatches(token, readAt, s.history.mutations)
    requires s.history.mutations - readAt < TWO_TO_64
    requires FillLands(s.cache, token)
    ensures readAt == s.history.mutations
  {
    TokensIdentifyVersions(s.cache.version, s.cache.version);
    var elapsed := s.history.mutations - readAt;
    AdvancedAdds(0, readAt, elapsed);
    CacheRuns.CounterComesBack(Advanced(0, readAt), elapsed);
  }

  lemma OutsideStepKeepsCoherence(s: System, l: Label)
    requires Coherent(s) && WritesAreCommitted(s) && VersionIsMutationCount(s)
    requires Enabled(s, l) && ActsOutsideCalls(l)
    ensures
      var t := Next(s, l);
      Coherent(t) && WritesAreCommitted(t) && VersionIsMutationCount(t)
  {
  }

  /** A commit leaves the write pending, and a publication moves the counter on. */
  lemma OutsideStepKeepsLead(s: System, l: Label, id: nat)
    requires Enabled(s, l) && ActsOutsideCalls(l)
    requires id in s.flight.loaders && s.flight.loaders[id].phase.Leading? && LeadIsSound(s, id)
    ensures Next(s, l).flight == s.flight && LeadIsSound(Next(s, l), id)
  {
  }

  lemma OutsideStepKeepsInv(s: System, l: Label)
    requires Inv(s) && Enabled(s, l) && ActsOutsideCalls(l)
    ensures Inv(Next(s, l))
  {
    OutsideStepKeepsCoherence(s, l);
    forall id | id in s.flight.loaders && s.flight.loaders[id].phase.Leading?
      ensures LeadIsSound(Next(s, l), id)
    {
      OutsideStepKeepsLead(s, l, id);
    }
  }

  lemma {:induction false} InvNext(s: System, l: Label)
    requires Inv(s) && Enabled(s, l) && WithinCounterRange(s, l)
    ensures Inv(Next(s, l))
  {
    if ActsOutsideCalls(l) {
      OutsideStepKeepsInv(s, l);
    } else {
      SingleFlightNext(s, l);
      CallStepKeepsCoherence(s, l);
      CallStepKeepsLeads(s, l);
    }
  }

  lemma CallStepKeepsCoherence(s: System, l: Label)
    requires Inv(s) && Enabled(s, l) && WithinCounterRange(s, l) && !ActsOutsideCalls(l)
    ensures
      var t := Next(s, l);
      Coherent(t) && WritesAreCommitted(t) && VersionIsMutationCount(t)
  {
    if l.TryFill? {
      FillKeepsCoherence(s, l);
    }
  }

  lemma FillKeepsCoherence(s: System, l: Label)
    requires Inv(s) && Enabled(s, l) && WithinCounterRange(s, l) && l.TryFill?
    ensures
      var t := Next(s, l);
      Coherent(t) && WritesAreCommitted(t) && VersionIsMutationCount(t)
  {
    var Loader(key, phase) := s.flight.loaders[l.id];
    assert LeadIsSound(s, l.id);
    if FillLands(s.cache, phase.lead.token) {
      LandingMeansUndisturbed(s, phase.lead.token, phase.lead.readAt);
      assert Held(s.flight, l.id) == Some(s.flight.calls[l.id].outcome.config);
    }
  }

  lemma CallStepKeepsLeads(s: System, l: Label)
    requires Inv(s) && Enabled(s, l) && !ActsOutsideCalls(l)
    ensures LeadsAreSound(Next(s, l))
  {
    var t := Next(s, l);
    forall id | id in t.flight.loaders && t.flight.loaders[id].phase.Leading?
      ensures LeadIsSound(t, id)
    {
      if l.id != id {
        OtherLoadersStay(s, l, id);
        OtherLeadsStaySound(s, t, id);
      } else if Advances(l) {
        assert s.flight.loaders[id].phase.Leading? by {
          StepsMayAdvance(s, l);
        }
        assert LeadIsSound(s, id);
        OwnStepKeepsLead(s, l);
      }
    }
  }

  lemma OtherLeadsStaySound(s: System, t: System, id: nat)
    requires id in s.flight.loaders && s.flight.loaders[id].phase.Leading? && LeadIsSound(s, id)
    requires id in t.flight.loaders && t.flight.loaders[id] == s.flight.loaders[id]
    requires id in s.flight.calls <==> id in t.flight.calls
    requires id in s.flight.calls ==> s.flight.calls[id] == t.flight.calls[id]
    requires t.source == s.source && t.pending == s.pending
    requires s.history.mutations <= t.history.mutations
    ensures LeadIsSound(t, id)
  {
  }

  lemma OwnStepKeepsLead(s: System, l: Label)
    requires VersionIsMutationCount(s) && Enabled(s, l) && Advances(l)
    requires s.flight.loaders[l.id].phase.Leading? && LeadIsSound(s, l.id)
    ensures l.id in Next(s, l).flight.loaders && Next(s, l).flight.loaders[l.id].phase.Leading?
    ensures LeadIsSound(Next(s, l), l.id)
  {
  }

  /** No fill of the run is attempted after 2^64 mutations since its leader's read. */
  predicate AlwaysWithinCounterRange(s: System, labels: seq<Label>)
    requires Executable(s, labels)
    decreases |labels|
  {
    labels == [] ||
    var front := labels[..|labels| - 1];
    AlwaysWithinCounterRange(s, front) && WithinCounterRange(After(s, front), labels[|labels| - 1])
  }

  lemma {:induction false} InvAlways(s: System, labels: seq<Label>)
    requires Inv(s) && Executable(s, labels) && AlwaysWithinCounterRange(s, labels)
    ensures Inv(After(s, labels))
  {
    if labels != [] {
      var front := labels[..|labels| - 1];
      InvAlways(s, front);
      InvNext(After(s, front), labels[|labels| - 1]);
    }
  }

  /**
   In every reachable state each cached entry is the source's configuration for its key,
   or a committed write for that key is still unpublished.
   */
  lemma WriteThroughCoherence(
    cache: Cache, now: Time, source: map<CacheKey, ContainerConfig>, labels: seq<Label>, key: CacheKey
  )
    requires forall k :: k in cache.entries ==> Current(source, k, cache.entries[k].config)
    requires Executable(Initial(cache, now, source), labels)
    requires AlwaysWithinCounterRange(Initial(cache, now, source), labels)
    ensures
      var s := After(Initial(cache, now, source), labels);
      key in s.cache.entries ==> key in s.pending || Current(s.source, key, s.cache.entries[key].config)
  {
    AdvancedWraps(0, cache.version);
    InvAlways(Initial(cache, now, source), labels);
    assert Coherent(After(Initial(cache, now, source), labels));
  }
}
