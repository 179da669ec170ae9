/**
 What an Open that starts after an update was published may return. In every run, whatever
 is committed while it is under way, it returns an answer the source gave between its
 arrival and its return, if and only if it finds no load for its key in flight that
 already holds an outdated answer.
 */
module Freshness {
  import opened Wrappers
  import opened ConfigTypes
  import opened CacheModel
  import opened LoaderProtocol
  import opened Schedules
  import opened LoadWindows
  import opened Coherence

  /** What the source says about a key: a configuration, or that there is none. */
  type Truth = Option<ContainerConfig>

  function SourceValue(s: System, key: CacheKey): Truth {
    if key in s.source then Some(s.source[key]) else None
  }

  /** An outcome that reports one of the truths; an error other than NotFound claims nothing. */
  predicate Faithful(outcome: Outcome, truths: set<Truth>) {
    && (outcome.err == None ==> Some(outcome.config) in truths)
    && (outcome.err == Some(NotFound) ==> None in truths)
  }

  /** What the source has said about the key at the moments of a run, its start included. */
  function TruthsSince(s: System, labels: seq<Label>, key: CacheKey): set<Truth>
    requires Executable(s, labels)
    decreases |labels|
  {
    {SourceValue(After(s, labels), key)} +
    if labels == [] then {} else TruthsSince(s, labels[..|labels| - 1], key)
  }

  /** The outcome a leader returns from here on, once it has read one that is still usable. */
  function HeldOutcome(s: System, id: nat): Option<Outcome> {
    if id in s.flight.loaders && id in s.flight.calls && s.flight.loaders[id].phase.Leading? then
      match s.flight.loaders[id].phase.lead
      case VersionedCheck(_, _, entry) =>
        if Expired(entry, s.now) then None else Some(Outcome(entry.config, None))
      case Window(_, _, stage) =>
        (match stage
         case SourceAnswered(answer) => Some(answer)
         case Filling => Some(s.flight.calls[id].outcome)
         case _ => None)
      case Releasing => Some(s.flight.calls[id].outcome)
      case _ => None
    else None
  }

  predicate HoldsOutdated(s: System, id: nat, truths: set<Truth>) {
    HeldOutcome(s, id).Some? && !Faithful(HeldOutcome(s, id).value, truths)
  }

  /** A leader fills only after its source succeeded. */
  predicate FillsAreErrorFree(f: Flight) {
    forall id :: id in f.calls && id in f.loaders && AtStage(f.loaders[id].phase, Filling) ==>
      f.calls[id].outcome.err.None?
  }

  lemma OwnFillIsErrorFree(s: System, l: Label)
    requires FillsAreErrorFree(s.flight) && Enabled(s, l) && !ActsOutsideCalls(l)
    ensures
      var f := Next(s, l).flight;
      l.id in f.calls && l.id in f.loaders && AtStage(f.loaders[l.id].phase, Filling) ==>
        f.calls[l.id].outcome.err.None?
  {
  }

  lemma FillsStayErrorFree(s: System, l: Label)
    requires FillsAreErrorFree(s.flight) && Enabled(s, l)
    ensures FillsAreErrorFree(Next(s, l).flight)
  {
    if !ActsOutsideCalls(l) {
      var f := Next(s, l).flight;
      forall id | id in f.calls && id in f.loaders && AtStage(f.loaders[id].phase, Filling)
        ensures f.calls[id].outcome.err.None?
      {
        if id == l.id {
          OwnFillIsErrorFree(s, l);
        } else {
          OtherLoadersStay(s, l, id);
        }
      }
    }
  }

  /** Everything the cache, the source and the leaders could still answer for the key is one of the truths. */
  predicate OnlyTruthsAround(s: System, key: CacheKey, truths: set<Truth>) {
    && SourceValue(s, key) in truths
    && (key in s.cache.entries ==> Some(s.cache.entries[key].config) in truths)
    && (forall id :: id in s.flight.calls && LeadsFor(s.flight, id, key) ==> !HoldsOutdated(s, id, truths))
  }

  /** What a waiter sees of a call: its key, and its outcome once it is closed. */
  predicate ReportsTruths(f: Flight, leader: nat, key: CacheKey, truths: set<Truth>) {
    && leader in f.calls && f.calls[leader].key == key
    && (!f.calls[leader].open ==> Faithful(f.calls[leader].outcome, truths))
  }

  /** The newcomer has seen, waits for, or returned nothing but truths. */
  predicate NewcomerIsFaithful(f: Flight, id: nat, key: CacheKey, truths: set<Truth>) {
    && id in f.loaders && f.loaders[id].key == key
    && match f.loaders[id].phase
       case FirstCheck(entry) => Some(entry.config) in truths
       case Waiting(leader) => ReportsTruths(f, leader, key, truths)
       case Done(outcome, _) => Faithful(outcome, truths)
       case _ => true
  }

  predicate Fresh(s: System, id: nat, key: CacheKey, truths: set<Truth>) {
    && SingleFlight(s.flight) && WritesAreCommitted(s) && FillsAreErrorFree(s.flight)
    && OnlyTruthsAround(s, key, truths)
    && NewcomerIsFaithful(s.flight, id, key, truths)
  }

  /** More truths make nothing stale. */
  lemma MoreTruths(s: System, id: nat, key: CacheKey, truths: set<Truth>, more: set<Truth>)
    requires Fresh(s, id, key, truths) && truths <= more
    ensures Fresh(s, id, key, more)
  {
    forall p | p in s.flight.calls && LeadsFor(s.flight, p, key)
      ensures !HoldsOutdated(s, p, more)
    {
      assert !HoldsOutdated(s, p, truths);
    }
  }

  lemma OwnLeadStaysFaithful(s: System, l: Label, key: CacheKey, truths: set<Truth>)
    requires Enabled(s, l) && Advances(l) && SourceValue(s, key) in truths
    requires key in s.cache.entries ==> Some(s.cache.entries[key].config) in truths
    requires LeadsFor(s.flight, l.id, key) && l.id in s.flight.calls && !HoldsOutdated(s, l.id, truths)
    ensures !HoldsOutdated(Next(s, l), l.id, truths)
  {
  }

  lemma OtherLeadStays(s: System, l: Label, id: nat)
    requires Enabled(s, l) && !ActsOutsideCalls(l) && id != l.id
    requires id in Next(s, l).flight.loaders && id in Next(s, l).flight.calls
    ensures id in s.flight.loaders && Next(s, l).flight.loaders[id] == s.flight.loaders[id]
    ensures id in s.flight.calls && HeldOutcome(Next(s, l), id) == HeldOutcome(s, id)
  {
    OtherLoadersStay(s, l, id);
    assert Next(s, l).now == s.now;
  }

  lemma LeadsStayFaithful(s: System, l: Label, key: CacheKey, truths: set<Truth>, id: nat)
    requires SingleFlight(s.flight) && OnlyTruthsAround(s, key, truths)
    requires Enabled(s, l) && !ActsOutsideCalls(l)
    requires id in Next(s, l).flight.calls && LeadsFor(Next(s, l).flight, id, key)
    ensures !HoldsOutdated(Next(s, l), id, truths)
  {
    if id != l.id {
      OtherLeadStays(s, l, id);
      assert LeadsFor(s.flight, id, key) && !HoldsOutdated(s, id, truths);
    } else if Advances(l) {
      AdvancingLeadLed(s, l, key);
      assert !HoldsOutdated(s, id, truths);
      OwnLeadStaysFaithful(s, l, key, truths);
    }
  }

  lemma AdvancingLeadLed(s: System, l: Label, key: CacheKey)
    requires SingleFlight(s.flight) && Enabled(s, l) && Advances(l)
    requires LeadsFor(Next(s, l).flight, l.id, key)
    ensures LeadsFor(s.flight, l.id, key) && l.id in s.flight.calls
  {
    StepsMayAdvance(s, l);
  }

  /** What a landing fill caches is the outcome its leader held. */
  lemma CachedStaysTrue(s: System, l: Label, key: CacheKey, truths: set<Truth>)
    requires CallsBelongToLeaders(s.flight) && FillsAreErrorFree(s.flight) && OnlyTruthsAround(s, key, truths)
    requires Enabled(s, l) && !ActsOutsideCalls(l) && key in Next(s, l).cache.entries
    ensures Some(Next(s, l).cache.entries[key].config) in truths
  {
    if l.TryFill? && s.flight.loaders[l.id].key == key {
      assert LeadsFor(s.flight, l.id, key) && !HoldsOutdated(s, l.id, truths);
    }
  }

  lemma CallsKeepTruths(s: System, l: Label, key: CacheKey, truths: set<Truth>)
    requires SingleFlight(s.flight) && FillsAreErrorFree(s.flight) && OnlyTruthsAround(s, key, truths)
    requires Enabled(s, l) && !ActsOutsideCalls(l)
    ensures OnlyTruthsAround(Next(s, l), key, truths)
  {
    var t := Next(s, l);
    if key in t.cache.entries {
      CachedStaysTrue(s, l, key, truths);
    }
    forall id | id in t.flight.calls && LeadsFor(t.flight, id, key)
      ensures !HoldsOutdated(t, id, truths)
    {
      LeadsStayFaithful(s, l, key, truths, id);
    }
  }

  /** A publication caches what was committed, which is what the source still says. */
  lemma PublishedIsTrue(s: System, l: Label, key: CacheKey, truths: set<Truth>)
    requires WritesAreCommitted(s) && Enabled(s, l) && ActsOutsideCalls(l)
    requires SourceValue(s, key) in truths
    requires key in s.cache.entries ==> Some(s.cache.entries[key].config) in truths
    ensures key in Next(s, l).cache.entries ==> Some(Next(s, l).cache.entries[key].config) in truths
  {
  }

  /** Time can only make a held outcome unusable. */
  lemma OutsideStepsKeepTruths(s: System, l: Label, key: CacheKey, truths: set<Truth>)
    requires WritesAreCommitted(s) && OnlyTruthsAround(s, key, truths)
    requires Enabled(s, l) && ActsOutsideCalls(l) && SourceValue(Next(s, l), key) in truths
    ensures OnlyTruthsAround(Next(s, l), key, truths)
  {
    PublishedIsTrue(s, l, key, truths);
    assert Next(s, l).flight == s.flight && s.now <= Next(s, l).now;
    forall id | id in s.flight.calls && LeadsFor(s.flight, id, key)
      ensures !HoldsOutdated(Next(s, l), id, truths)
    {
      assert !HoldsOutdated(s, id, truths);
    }
  }

  lemma CommitsAreWritten(s: System, l: Label)
    requires WritesAreCommitted(s) && Enabled(s, l)
    ensures WritesAreCommitted(Next(s, l))
  {
  }

  lemma NewcomerElects(f: Flight, id: nat, key: CacheKey, truths: set<Truth>)
    requires SlotsAreOpenCalls(f) && NewcomerIsFaithful(f, id, key, truths)
    ensures NewcomerIsFaithful(TakeSlot(f, id), id, key, truths)
  {
  }

  lemma NewcomerAdvances(s: System, l: Label, key: CacheKey, truths: set<Truth>)
    requires Enabled(s, l) && Advances(l)
    requires key in s.cache.entries ==> Some(s.cache.entries[key].config) in truths
    requires NewcomerIsFaithful(s.flight, l.id, key, truths)
    ensures NewcomerIsFaithful(Next(s, l).flight, l.id, key, truths)
  {
  }

  lemma NewcomerOwnStep(s: System, l: Label, key: CacheKey, truths: set<Truth>)
    requires Enabled(s, l) && !ActsOutsideCalls(l) && !l.Arrive? && !l.Release?
    requires SlotsAreOpenCalls(s.flight)
    requires key in s.cache.entries ==> Some(s.cache.entries[key].config) in truths
    requires NewcomerIsFaithful(s.flight, l.id, key, truths)
    ensures NewcomerIsFaithful(Next(s, l).flight, l.id, key, truths)
  {
    FlightSteps(s, l);
    if l.Elect? {
      NewcomerElects(s.flight, l.id, key, truths);
    } else {
      NewcomerAdvances(s, l, key, truths);
    }
  }

  lemma NewcomerReleases(s: System, l: Label, key: CacheKey, truths: set<Truth>)
    requires Enabled(s, l) && l.Release? && CallsBelongToLeaders(s.flight)
    requires OnlyTruthsAround(s, key, truths) && NewcomerIsFaithful(s.flight, l.id, key, truths)
    ensures NewcomerIsFaithful(Next(s, l).flight, l.id, key, truths)
  {
    assert !HoldsOutdated(s, l.id, truths);
  }

  lemma OnlyReleaseCloses(s: System, l: Label)
    requires Enabled(s, l) && !ActsOutsideCalls(l) && !l.Release? && l.id in s.flight.calls
    requires l.id in s.flight.loaders && !s.flight.loaders[l.id].phase.Electing?
    requires !s.flight.calls[l.id].open ==> !s.flight.loaders[l.id].phase.Leading?
    ensures
      var c, f := s.flight.calls[l.id], Next(s, l).flight;
      && l.id in f.calls && f.calls[l.id].key == c.key && f.calls[l.id].open == c.open
      && (!c.open ==> f.calls[l.id] == c)
  {
  }

  lemma ClosingIsFaithful(s: System, l: Label, key: CacheKey, truths: set<Truth>)
    requires CallsBelongToLeaders(s.flight) && OnlyTruthsAround(s, key, truths)
    requires Enabled(s, l) && !ActsOutsideCalls(l)
    requires l.id in s.flight.calls && s.flight.calls[l.id].key == key
    requires !s.flight.calls[l.id].open ==> Faithful(s.flight.calls[l.id].outcome, truths)
    ensures l.id in Next(s, l).flight.calls && Next(s, l).flight.calls[l.id].key == key
    ensures !Next(s, l).flight.calls[l.id].open ==> Faithful(Next(s, l).flight.calls[l.id].outcome, truths)
  {
    assert s.flight.calls[l.id].open <==> s.flight.loaders[l.id].phase.Leading?;
    if l.Release? {
      assert !HoldsOutdated(s, l.id, truths);
    } else {
      OnlyReleaseCloses(s, l);
    }
  }

  lemma CallsReportTruths(s: System, l: Label, leader: nat, key: CacheKey, truths: set<Truth>)
    requires CallsBelongToLeaders(s.flight) && OnlyTruthsAround(s, key, truths)
    requires Enabled(s, l) && !ActsOutsideCalls(l) && ReportsTruths(s.flight, leader, key, truths)
    ensures ReportsTruths(Next(s, l).flight, leader, key, truths)
  {
    if l.id == leader {
      ClosingIsFaithful(s, l, key, truths);
    } else {
      OtherLoadersStay(s, l, leader);
    }
  }

  lemma NewcomerWaitsWhileOthersStep(s: System, l: Label, id: nat, key: CacheKey, truths: set<Truth>)
    requires CallsBelongToLeaders(s.flight) && OnlyTruthsAround(s, key, truths)
    requires NewcomerIsFaithful(s.flight, id, key, truths)
    requires Enabled(s, l) && !ActsOutsideCalls(l) && l.id != id
    ensures NewcomerIsFaithful(Next(s, l).flight, id, key, truths)
  {
    OtherLoadersStay(s, l, id);
    if s.flight.loaders[id].phase.Waiting? {
      CallsReportTruths(s, l, s.flight.loaders[id].phase.leader, key, truths);
    }
  }

  lemma NewcomerStaysFaithful(s: System, l: Label, id: nat, key: CacheKey, truths: set<Truth>)
    requires SingleFlight(s.flight) && OnlyTruthsAround(s, key, truths)
    requires NewcomerIsFaithful(s.flight, id, key, truths)
    requires Enabled(s, l) && !ActsOutsideCalls(l)
    ensures NewcomerIsFaithful(Next(s, l).flight, id, key, truths)
  {
    if id != l.id {
      NewcomerWaitsWhileOthersStep(s, l, id, key, truths);
    } else if l.Release? {
      NewcomerReleases(s, l, key, truths);
    } else {
      NewcomerOwnStep(s, l, key, truths);
    }
  }

  lemma FreshNext(s: System, l: Label, id: nat, key: CacheKey, truths: set<Truth>)
    requires Fresh(s, id, key, truths) && Enabled(s, l)
    requires SourceValue(Next(s, l), key) in truths
    ensures Fresh(Next(s, l), id, key, truths)
  {
    SingleFlightNext(s, l);
    CommitsAreWritten(s, l);
    FillsStayErrorFree(s, l);
    if ActsOutsideCalls(l) {
      OutsideStepsKeepTruths(s, l, key, truths);
    } else {
      CallsKeepTruths(s, l, key, truths);
      NewcomerStaysFaithful(s, l, id, key, truths);
    }
  }

  /** A commit adds a truth; nothing else does. */
  lemma {:induction false} FreshAlways(s: System, labels: seq<Label>, id: nat, key: CacheKey)
    requires Fresh(s, id, key, {SourceValue(s, key)}) && Executable(s, labels)
    ensures Fresh(After(s, labels), id, key, TruthsSince(s, labels, key))
  {
    if labels != [] {
      var front, l := labels[..|labels| - 1], labels[|labels| - 1];
      FreshAlways(s, front, id, key);
      MoreTruths(After(s, front), id, key, TruthsSince(s, front, key), TruthsSince(s, labels, key));
      FreshNext(After(s, front), l, id, key, TruthsSince(s, labels, key));
    } else {
      assert TruthsSince(s, labels, key) == {SourceValue(s, key)};
    }
  }

  /** Every write for the key is published. */
  predicate Settled(s: System, key: CacheKey) {
    Inv(s) && FillsAreErrorFree(s.flight) && key !in s.pending
  }

  /** What Settled asks besides published writes holds in every reachable state. */
  lemma {:induction false} ReachableStatesSettle(
    cache: Cache, now: Time, source: map<CacheKey, ContainerConfig>, labels: seq<Label>, key: CacheKey
  )
    requires forall k :: k in cache.entries ==> Current(source, k, cache.entries[k].config)
    requires Executable(Initial(cache, now, source), labels)
    requires AlwaysWithinCounterRange(Initial(cache, now, source), labels)
    ensures
      var s := After(Initial(cache, now, source), labels);
      key !in s.pending ==> Settled(s, key)
  {
    AdvancedWraps(0, cache.version);
    InvAlways(Initial(cache, now, source), labels);
    FillsAlwaysErrorFree(Initial(cache, now, source), labels);
  }

  lemma {:induction false} FillsAlwaysErrorFree(s: System, labels: seq<Label>)
    requires FillsAreErrorFree(s.flight) && Executable(s, labels)
    ensures FillsAreErrorFree(After(s, labels).flight)
  {
    if labels != [] {
      var front := labels[..|labels| - 1];
      FillsAlwaysErrorFree(s, front);
      FillsStayErrorFree(After(s, front), labels[|labels| - 1]);
    }
  }

  /** A leader for the key has read an answer that is not the source's present one. */
  predicate OutdatedLoadInFlight(s: System, key: CacheKey) {
    key in s.flight.loads && HoldsOutdated(s, s.flight.loads[key], {SourceValue(s, key)})
  }

  lemma CachedIsTrue(s: System, key: CacheKey)
    requires Coherent(s) && key !in s.pending
    ensures key in s.cache.entries ==> SourceValue(s, key) == Some(s.cache.entries[key].config)
  {
  }

  lemma ArrivesFresh(s: System, id: nat, key: CacheKey)
    requires Settled(s, key) && id !in s.flight.loaders && !OutdatedLoadInFlight(s, key)
    ensures Fresh(Next(s, Arrive(id, key)), id, key, {SourceValue(s, key)})
  {
    var t := Next(s, Arrive(id, key));
    SingleFlightNext(s, Arrive(id, key));
    FillsStayErrorFree(s, Arrive(id, key));
    CachedIsTrue(s, key);
    forall p | p in t.flight.calls && LeadsFor(t.flight, p, key)
      ensures !HoldsOutdated(t, p, {SourceValue(s, key)})
    {
      assert p != id && s.flight.loads[key] == p;
      assert HeldOutcome(t, p) == HeldOutcome(s, p);
    }
  }

  /**
   An Open that arrives while every write for its key is published and no load in flight
   for its key holds an outdated answer reports, once it has returned, something the source
   said since its arrival, whatever is committed meanwhile.
   */
  lemma OpenAfterUpdateIsFresh(s: System, id: nat, key: CacheKey, labels: seq<Label>)
    requires Settled(s, key) && id !in s.flight.loaders && !OutdatedLoadInFlight(s, key)
    requires Executable(Next(s, Arrive(id, key)), labels)
    ensures
      var arrived := Next(s, Arrive(id, key));
      var t := After(arrived, labels);
      && id in t.flight.loaders
      && (t.flight.loaders[id].phase.Done? ==>
            Faithful(t.flight.loaders[id].phase.outcome, TruthsSince(arrived, labels, key)))
  {
    ArrivesFresh(s, id, key);
    FreshAlways(Next(s, Arrive(id, key)), labels, id, key);
  }

  // ----- Joining a load that has already read -----

  /** Steps of calls, none of them a fill. */
  predicate Harmless(labels: seq<Label>) {
    forall i :: 0 <= i < |labels| ==> !ActsOutsideCalls(labels[i]) && !labels[i].TryFill?
  }

  /** Without a fill or anything outside the calls, the schedule lets the waiter return the leader's outcome. */
  predicate Delivers(s: System, labels: seq<Label>, id: nat, leader: nat, key: CacheKey, outcome: Outcome) {
    && Executable(s, labels) && Harmless(labels)
    && id in After(s, labels).flight.loaders
    && After(s, labels).flight.loaders[id] == Loader(key, Done(outcome, Joined(leader)))
  }

  ghost predicate CanDeliver(s: System, id: nat, leader: nat, key: CacheKey, outcome: Outcome) {
    exists labels :: Delivers(s, labels, id, leader, key, outcome)
  }

  lemma StepThenDeliver(s: System, l: Label, id: nat, leader: nat, key: CacheKey, outcome: Outcome)
    requires Enabled(s, l) && !ActsOutsideCalls(l) && !l.TryFill?
    requires CanDeliver(Next(s, l), id, leader, key, outcome)
    ensures CanDeliver(s, id, leader, key, outcome)
  {
    var labels :| Delivers(Next(s, l), labels, id, leader, key, outcome);
    StepFirst(s, l, labels);
    assert Delivers(s, [l] + labels, id, leader, key, outcome);
  }

  predicate WaitsFor(s: System, id: nat, leader: nat, key: CacheKey) {
    && id in s.flight.loaders && s.flight.loaders[id] == Loader(key, Waiting(leader))
    && leader in s.flight.loaders && leader in s.flight.calls
  }

  lemma WaiterWakes(s: System, id: nat, leader: nat, key: CacheKey)
    requires WaitsFor(s, id, leader, key) && !s.flight.calls[leader].open
    ensures CanDeliver(s, id, leader, key, s.flight.calls[leader].outcome)
  {
    OneStep(s, WaitEnds(id));
    assert Delivers(s, [WaitEnds(id)], id, leader, key, s.flight.calls[leader].outcome);
  }

  /** The leader's next step towards returning what it holds. */
  function NextTowardsReturn(lead: Lead, leader: nat): Label
    requires
      || lead.VersionedCheck? || lead.Releasing?
      || (lead.Window? && (lead.stage.SourceAnswered? || lead.stage.Filling?))
  {
    match lead
    case VersionedCheck(_, _, _) => VersionedClock(leader)
    case Window(_, _, stage) => if stage.Filling? then FillCancelled(leader) else SourceReturns(leader)
    case Releasing => Release(leader)
  }

  lemma HolderSteps(s: System, id: nat, leader: nat, key: CacheKey)
    requires WaitsFor(s, id, leader, key) && HeldOutcome(s, leader).Some?
    ensures
      var l := NextTowardsReturn(s.flight.loaders[leader].phase.lead, leader);
      && Enabled(s, l) && WaitsFor(Next(s, l), id, leader, key)
      && (l.Release? ==>
            var call := Next(s, l).flight.calls[leader];
            !call.open && Some(call.outcome) == HeldOutcome(s, leader))
      && (!l.Release? ==> HeldOutcome(Next(s, l), leader) == HeldOutcome(s, leader))
  {
  }

  function StepsToReturn(s: System, leader: nat): nat {
    if leader !in s.flight.loaders || !s.flight.loaders[leader].phase.Leading? then 0
    else
      var lead := s.flight.loaders[leader].phase.lead;
      if lead.Releasing? then 0 else if lead.Window? && lead.stage.Filling? then 1 else 2
  }

  lemma {:induction false} HolderDelivers(s: System, id: nat, leader: nat, key: CacheKey)
    requires WaitsFor(s, id, leader, key) && HeldOutcome(s, leader).Some?
    ensures CanDeliver(s, id, leader, key, HeldOutcome(s, leader).value)
    decreases StepsToReturn(s, leader)
  {
    var l := NextTowardsReturn(s.flight.loaders[leader].phase.lead, leader);
    HolderSteps(s, id, leader, key);
    if l.Release? {
      WaiterWakes(Next(s, l), id, leader, key);
    } else {
      HolderDelivers(Next(s, l), id, leader, key);
    }
    StepThenDeliver(s, l, id, leader, key, HeldOutcome(s, leader).value);
  }

  lemma NewcomerJoins(s: System, id: nat, key: CacheKey)
    requires id !in s.flight.loaders && key in s.flight.loads
    requires HeldOutcome(s, s.flight.loads[key]).Some?
    ensures
      var leader, a := s.flight.loads[key], Next(s, Arrive(id, key));
      && Enabled(a, FirstGetFails(id)) && Enabled(Next(a, FirstGetFails(id)), Elect(id))
      && var t := Next(Next(a, FirstGetFails(id)), Elect(id));
      && WaitsFor(t, id, leader, key) && HeldOutcome(t, leader) == HeldOutcome(s, leader)
  {
  }

  /**
   A newcomer that misses while the leader for its key holds an outcome, be it read from the
   cache or from the source, may return that outcome, whatever the source says by then.
   */
  lemma JoinedOpenMayBeStale(s: System, id: nat, key: CacheKey)
    requires id !in s.flight.loaders && key in s.flight.loads
    requires HeldOutcome(s, s.flight.loads[key]).Some?
    ensures
      var leader := s.flight.loads[key];
      CanDeliver(Next(s, Arrive(id, key)), id, leader, key, HeldOutcome(s, leader).value)
  {
    var leader, a := s.flight.loads[key], Next(s, Arrive(id, key));
    NewcomerJoins(s, id, key);
    HolderDelivers(Next(Next(a, FirstGetFails(id)), Elect(id)), id, leader, key);
    StepThenDeliver(Next(a, FirstGetFails(id)), Elect(id), id, leader, key, HeldOutcome(s, leader).value);
    StepThenDeliver(a, FirstGetFails(id), id, leader, key, HeldOutcome(s, leader).value);
  }

  /** A run after which the loader has returned something the source said at no moment of the run. */
  predicate ReturnsStale(s: System, labels: seq<Label>, id: nat, key: CacheKey) {
    && Executable(s, labels)
    && id in After(s, labels).flight.loaders && After(s, labels).flight.loaders[id].phase.Done?
    && !Faithful(After(s, labels).flight.loaders[id].phase.outcome, TruthsSince(s, labels, key))
  }

  ghost predicate MayReturnStale(s: System, id: nat, key: CacheKey) {
    exists labels :: ReturnsStale(s, labels, id, key)
  }

  lemma SourceStays(s: System, l: Label, key: CacheKey)
    requires Enabled(s, l) && !(l.Commit? && l.key == key)
    ensures SourceValue(Next(s, l), key) == SourceValue(s, key)
  {
  }

  predicate NoCommit(labels: seq<Label>, key: CacheKey) {
    forall i :: 0 <= i < |labels| ==> !(labels[i].Commit? && labels[i].key == key)
  }

  /** Without a commit for the key there is one truth. */
  lemma {:induction false} OneTruth(s: System, labels: seq<Label>, key: CacheKey)
    requires Executable(s, labels) && NoCommit(labels, key)
    ensures TruthsSince(s, labels, key) == {SourceValue(s, key)}
    ensures SourceValue(After(s, labels), key) == SourceValue(s, key)
  {
    if labels != [] {
      var front := labels[..|labels| - 1];
      OneTruth(s, front, key);
      SourceStays(After(s, front), labels[|labels| - 1], key);
    }
  }

  lemma {:induction false} OutdatedLoadIsJoined(s: System, id: nat, key: CacheKey)
    requires id !in s.flight.loaders && OutdatedLoadInFlight(s, key)
    ensures exists labels :: Harmless(labels) && ReturnsStale(Next(s, Arrive(id, key)), labels, id, key)
  {
    var arrived, leader := Next(s, Arrive(id, key)), s.flight.loads[key];
    JoinedOpenMayBeStale(s, id, key);
    var labels :| Delivers(arrived, labels, id, leader, key, HeldOutcome(s, leader).value);
    OneTruth(arrived, labels, key);
    assert ReturnsStale(arrived, labels, id, key);
  }

  /**
   The exact condition of the documented promise. With every write for the key published,
   an Open that arrives now can return something the source said at no moment since, if and
   only if a load in flight for its key already holds an outdated answer.
   */
  lemma {:induction false} OpenIsStaleExactly(s: System, id: nat, key: CacheKey)
    requires Settled(s, key) && id !in s.flight.loaders
    ensures MayReturnStale(Next(s, Arrive(id, key)), id, key) <==> OutdatedLoadInFlight(s, key)
  {
    if OutdatedLoadInFlight(s, key) {
      OutdatedLoadIsJoined(s, id, key);
    } else if labels :| ReturnsStale(Next(s, Arrive(id, key)), labels, id, key) {
      OpenAfterUpdateIsFresh(s, id, key, labels);
    }
  }

  /** In a run without a commit for the key, the loader has returned something other than the truth. */
  predicate ReturnsOther(s: System, labels: seq<Label>, id: nat, key: CacheKey, truth: Truth) {
    && Executable(s, labels) && NoCommit(labels, key)
    && id in After(s, labels).flight.loaders && After(s, labels).flight.loaders[id].phase.Done?
    && !Faithful(After(s, labels).flight.loaders[id].phase.outcome, {truth})
  }

  ghost predicate MayReturnOther(s: System, id: nat, key: CacheKey, truth: Truth) {
    exists labels :: ReturnsOther(s, labels, id, key, truth)
  }

  /** The same condition decides whether it can return something else than the source says throughout. */
  lemma {:induction false} UndisturbedOpenIsStaleExactly(s: System, id: nat, key: CacheKey)
    requires Settled(s, key) && id !in s.flight.loaders
    ensures MayReturnOther(Next(s, Arrive(id, key)), id, key, SourceValue(s, key)) <==> OutdatedLoadInFlight(s, key)
  {
    var arrived, truth := Next(s, Arrive(id, key)), SourceValue(s, key);
    if OutdatedLoadInFlight(s, key) {
      OutdatedLoadIsJoined(s, id, key);
      var labels :| Harmless(labels) && ReturnsStale(arrived, labels, id, key);
      OneTruth(arrived, labels, key);
      assert ReturnsOther(arrived, labels, id, key, truth);
    } else if labels :| ReturnsOther(arrived, labels, id, key, truth) {
      OneTruth(arrived, labels, key);
      OpenAfterUpdateIsFresh(s, id, key, labels);
    }
  }

  // ----- One such run -----

  function Deletion(key: CacheKey): seq<Label> {
    [Commit(key, Remove)] + [Publish(key, 0)]
  }

  lemma DeletionTakesEffect(s: System, key: CacheKey)
    requires s.pending == map[] && 0 <= s.now
    ensures Executable(s, Deletion(key))
    ensures
      var t := After(s, Deletion(key));
      && t.flight == s.flight && t.now == s.now && t.pending == map[] && key !in t.source && key !in t.cache.entries
  {
    OneStep(s, Commit(key, Remove));
    Extend(s, [Commit(key, Remove)], Publish(key, 0));
  }

  lemma OpenedHolds(s: System, t: System, id: nat, key: CacheKey)
    requires key in s.source && t.flight == Opened(s, id, key).flight
    ensures t.flight.loads == s.flight.loads[key := id] && t.flight.loaders.Keys == s.flight.loaders.Keys + {id}
    ensures HeldOutcome(t, id) == Some(Outcome(s.source[key], None))
  {
  }

  /**
   Call 0 has read the source when the configuration is deleted at the source and in the
   cache; only then does caller 1 arrive, and it returns the deleted configuration.
   */
  lemma {:induction false} DeletedConfigurationIsReturned(key: CacheKey, config: ContainerConfig, ttl: Time)
    ensures
      var s, deleted := Initial(EmptyCache(ttl), 0, map[key := config]), OpenWindow(0, key) + Deletion(key);
      && Executable(s, deleted)
      && var t := After(s, deleted);
      && key !in t.source && key !in t.pending && key !in t.cache.entries && 1 !in t.flight.loaders
      && CanDeliver(Next(t, Arrive(1, key)), 1, 0, key, Outcome(config, None))
  {
    var s := Initial(EmptyCache(ttl), 0, map[key := config]);
    WindowOpens(s, 0, key);
    DeletionTakesEffect(Opened(s, 0, key), key);
    RunsConcatenate(s, OpenWindow(0, key), Deletion(key));
    var t := After(s, OpenWindow(0, key) + Deletion(key));
    OpenedHolds(s, t, 0, key);
    JoinedOpenMayBeStale(t, 1, key);
  }
}
