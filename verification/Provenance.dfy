/**
 Where the configurations that Load returns and caches come from, over every run. The
 statements speak of the steps taken, of what the cache and the source held at those steps
 and of the clock, not of how the step system moves from phase to phase.
 */
module Provenance {
  import opened Wrappers
  import opened ConfigTypes
  import opened CacheModel
  import opened LoaderProtocol
  import opened Schedules

  // ----- What a step of a run shows -----

  /** Step i, which is this one, found the entry cached for the key. */
  predicate FoundAt(states: seq<System>, labels: seq<Label>, i: nat, peek: Label, key: CacheKey, entry: Entry) {
    && i < |labels| && i < |states| && labels[i] == peek
    && key in states[i].cache.entries && states[i].cache.entries[key] == entry
  }

  ghost predicate Found(states: seq<System>, labels: seq<Label>, n: nat, peek: Label, key: CacheKey, entry: Entry) {
    exists i: nat :: i < n && FoundAt(states, labels, i, peek, key, entry)
  }

  /**
   Step i found an entry, and at step j, the look at the clock, it had not expired; the
   outcome is its configuration.
   */
  predicate HitAt(
    states: seq<System>, labels: seq<Label>, i: nat, j: nat, peek: Label, clock: Label, key: CacheKey, outcome: Outcome
  ) {
    && i < j < |labels| && j < |states| && labels[i] == peek && labels[j] == clock
    && key in states[i].cache.entries
    && outcome == Outcome(states[i].cache.entries[key].config, None)
    && states[j].now < states[i].cache.entries[key].expiresAt
  }

  ghost predicate Hit(
    states: seq<System>, labels: seq<Label>, n: nat, peek: Label, clock: Label, key: CacheKey, outcome: Outcome
  ) {
    exists i: nat, j: nat :: j < n && HitAt(states, labels, i, j, peek, clock, key, outcome)
  }

  /** At step i the source answered the call: with what it holds, with NotFound, or with another error. */
  predicate AnsweredAt(states: seq<System>, labels: seq<Label>, i: nat, id: nat, key: CacheKey, outcome: Outcome) {
    && i < |labels| && i < |states|
    && match labels[i]
       case SourceReads(caller, beside) =>
         && caller == id
         && if key in states[i].source then outcome == Outcome(states[i].source[key], None)
            else outcome == Outcome(beside, Some(NotFound))
       case SourceFails(caller, err, beside) => caller == id && outcome == Outcome(beside, Some(err))
       case _ => false
  }

  ghost predicate Answered(states: seq<System>, labels: seq<Label>, n: nat, id: nat, key: CacheKey, outcome: Outcome) {
    exists i: nat :: i < n && AnsweredAt(states, labels, i, id, key, outcome)
  }

  /** What a leader may return: an unexpired entry of its second read, or its source's answer. */
  ghost predicate LedTo(states: seq<System>, labels: seq<Label>, n: nat, id: nat, key: CacheKey, outcome: Outcome) {
    || Hit(states, labels, n, VersionedPeek(id), VersionedClock(id), key, outcome)
    || Answered(states, labels, n, id, key, outcome)
  }

  /** At step i the call found its key's slot taken by the leader. */
  predicate JoinsAt(states: seq<System>, labels: seq<Label>, i: nat, id: nat, key: CacheKey, leader: nat) {
    && i < |labels| && i < |states| && labels[i] == Elect(id)
    && key in states[i].flight.loads && states[i].flight.loads[key] == leader
  }

  ghost predicate Joins(states: seq<System>, labels: seq<Label>, n: nat, id: nat, key: CacheKey, leader: nat) {
    exists i: nat :: i < n && JoinsAt(states, labels, i, id, key, leader)
  }

  /** At step i the call's own context ended its wait. */
  predicate CancelledAt(labels: seq<Label>, i: nat, id: nat) {
    i < |labels| && labels[i] == WaitCancelled(id)
  }

  ghost predicate CancelledBefore(labels: seq<Label>, n: nat, id: nat) {
    exists i: nat :: i < n && CancelledAt(labels, i, id)
  }

  // ----- The invariant -----

  ghost predicate LeadAccounted(states: seq<System>, labels: seq<Label>, n: nat, id: nat, key: CacheKey, lead: Lead)
    requires n < |states|
  {
    var calls := states[n].flight.calls;
    match lead
    case VersionedCheck(_, _, entry) => Found(states, labels, n, VersionedPeek(id), key, entry)
    case Window(_, _, stage) =>
      (match stage
       case SourceAnswered(answer) => Answered(states, labels, n, id, key, answer)
       case Filling =>
         && id in calls && calls[id].outcome.err.None?
         && Answered(states, labels, n, id, key, calls[id].outcome)
       case _ => true)
    case Releasing => id in calls && LedTo(states, labels, n, id, key, calls[id].outcome)
    case _ => true
  }

  ghost predicate PhaseAccounted(states: seq<System>, labels: seq<Label>, n: nat, id: nat, key: CacheKey, phase: Phase)
    requires n < |states|
  {
    match phase
    case FirstCheck(entry) => Found(states, labels, n, FirstPeek(id), key, entry)
    case Waiting(leader) => Joins(states, labels, n, id, key, leader)
    case Leading(lead) => LeadAccounted(states, labels, n, id, key, lead)
    case Done(outcome, origin) =>
      (match origin
       case FromCache => Hit(states, labels, n, FirstPeek(id), FirstClock(id), key, outcome)
       case Led => LedTo(states, labels, n, id, key, outcome)
       case Joined(leader) => Joins(states, labels, n, id, key, leader)
       case Cancelled => outcome.err == Some(ContextDone) && CancelledBefore(labels, n, id))
    case _ => true
  }

  ghost predicate Accounted(states: seq<System>, labels: seq<Label>, n: nat, id: nat)
    requires n < |states|
  {
    id in states[n].flight.loaders ==>
      PhaseAccounted(states, labels, n, id, states[n].flight.loaders[id].key, states[n].flight.loaders[id].phase)
  }

  /** Nothing is forgotten. */
  lemma StaysAccounted(states: seq<System>, labels: seq<Label>, n: nat, id: nat)
    requires n + 1 < |states| && Accounted(states, labels, n, id)
    requires
      var f, g := states[n].flight, states[n + 1].flight;
      && (id in g.loaders ==> id in f.loaders && g.loaders[id] == f.loaders[id])
      && (id in f.calls ==> id in g.calls && g.calls[id] == f.calls[id])
    ensures Accounted(states, labels, n + 1, id)
  {
  }

  lemma FirstReadAccounted(states: seq<System>, labels: seq<Label>, n: nat, id: nat)
    requires Step(states, labels, n) && Accounted(states, labels, n, id)
    requires labels[n] == FirstPeek(id) || labels[n] == FirstClock(id)
    ensures Accounted(states, labels, n + 1, id)
  {
    var s, key := states[n], states[n].flight.loaders[id].key;
    if labels[n] == FirstPeek(id) {
      if key in s.cache.entries {
        assert FoundAt(states, labels, n, FirstPeek(id), key, s.cache.entries[key]);
      }
    } else {
      var entry := s.flight.loaders[id].phase.entry;
      var i: nat :| i < n && FoundAt(states, labels, i, FirstPeek(id), key, entry);
      if s.now < entry.expiresAt {
        assert HitAt(states, labels, i, n, FirstPeek(id), FirstClock(id), key, Outcome(entry.config, None));
      }
    }
  }

  lemma SecondReadAccounted(states: seq<System>, labels: seq<Label>, n: nat, id: nat)
    requires Step(states, labels, n) && Accounted(states, labels, n, id)
    requires labels[n] == VersionedPeek(id) || labels[n] == VersionedClock(id)
    ensures Accounted(states, labels, n + 1, id)
  {
    var s, key := states[n], states[n].flight.loaders[id].key;
    if labels[n] == VersionedPeek(id) {
      if key in s.cache.entries {
        assert FoundAt(states, labels, n, VersionedPeek(id), key, s.cache.entries[key]);
      }
    } else {
      var entry := s.flight.loaders[id].phase.lead.entry;
      var i: nat :| i < n && FoundAt(states, labels, i, VersionedPeek(id), key, entry);
      if s.now < entry.expiresAt {
        assert HitAt(states, labels, i, n, VersionedPeek(id), VersionedClock(id), key, Outcome(entry.config, None));
      }
    }
  }

  lemma SourceAccounted(states: seq<System>, labels: seq<Label>, n: nat, id: nat)
    requires Step(states, labels, n) && Accounted(states, labels, n, id)
    requires (labels[n].SourceReads? || labels[n].SourceFails?) && labels[n].id == id
    ensures Accounted(states, labels, n + 1, id)
  {
    var answer := states[n + 1].flight.loaders[id].phase.lead.stage.answer;
    assert AnsweredAt(states, labels, n, id, states[n].flight.loaders[id].key, answer);
  }

  /** Steps after which a leader's outcome is what it was. */
  predicate Concludes(l: Label) {
    l.SourceReturns? || l.TryFill? || l.FillCancelled? || l.Release?
  }

  lemma EndAccounted(states: seq<System>, labels: seq<Label>, n: nat, id: nat)
    requires Step(states, labels, n) && Accounted(states, labels, n, id)
    requires Concludes(labels[n]) && labels[n].id == id
    ensures Accounted(states, labels, n + 1, id)
  {
  }

  lemma WaitAccounted(states: seq<System>, labels: seq<Label>, n: nat, id: nat)
    requires Step(states, labels, n) && Accounted(states, labels, n, id)
    requires labels[n] == Elect(id) || labels[n] == WaitEnds(id) || labels[n] == WaitCancelled(id)
    ensures Accounted(states, labels, n + 1, id)
  {
    var s := states[n];
    var key := s.flight.loaders[id].key;
    if labels[n] == WaitCancelled(id) {
      assert CancelledAt(labels, n, id);
    } else if labels[n] == Elect(id) && key in s.flight.loads {
      assert JoinsAt(states, labels, n, id, key, s.flight.loads[key]);
    }
  }

  /** The other steps lead to phases that have nothing to account for. */
  lemma PlainStepAccounted(states: seq<System>, labels: seq<Label>, n: nat, id: nat)
    requires Step(states, labels, n) && Accounted(states, labels, n, id)
    requires
      var l := labels[n];
      && !ActsOutsideCalls(l) && l.id == id && !Concludes(l) && !l.FirstPeek? && !l.FirstClock?
      && !l.VersionedPeek? && !l.VersionedClock? && !l.SourceReads? && !l.SourceFails?
      && !l.Elect? && !l.WaitEnds? && !l.WaitCancelled?
    ensures Accounted(states, labels, n + 1, id)
  {
  }

  lemma StepAccounted(states: seq<System>, labels: seq<Label>, n: nat, id: nat)
    requires Step(states, labels, n) && Accounted(states, labels, n, id)
    ensures Accounted(states, labels, n + 1, id)
  {
    var l := labels[n];
    FlightSteps(states[n], l);
    if ActsOutsideCalls(l) {
      StaysAccounted(states, labels, n, id);
    } else if l.id != id {
      OtherLoadersStay(states[n], l, id);
      StaysAccounted(states, labels, n, id);
    } else if l.FirstPeek? || l.FirstClock? {
      FirstReadAccounted(states, labels, n, id);
    } else if l.VersionedPeek? || l.VersionedClock? {
      SecondReadAccounted(states, labels, n, id);
    } else if l.SourceReads? || l.SourceFails? {
      SourceAccounted(states, labels, n, id);
    } else if l.Elect? || l.WaitEnds? || l.WaitCancelled? {
      WaitAccounted(states, labels, n, id);
    } else if Concludes(l) {
      EndAccounted(states, labels, n, id);
    } else {
      PlainStepAccounted(states, labels, n, id);
    }
  }

  lemma {:induction false} AlwaysAccounted(states: seq<System>, labels: seq<Label>, n: nat, id: nat)
    requires Path(states, labels) && states[0].flight.loaders == map[] && n <= |labels|
    ensures Accounted(states, labels, n, id)
  {
    if n > 0 {
      AlwaysAccounted(states, labels, n - 1, id);
      assert Step(states, labels, n - 1);
      StepAccounted(states, labels, n - 1, id);
    }
  }

  lemma {:induction false} SingleFlightOnPaths(states: seq<System>, labels: seq<Label>, n: nat)
    requires Path(states, labels) && SingleFlight(states[0].flight) && n <= |labels|
    ensures SingleFlight(states[n].flight)
  {
    if n > 0 {
      SingleFlightOnPaths(states, labels, n - 1);
      assert Step(states, labels, n - 1);
      SingleFlightNext(states[n - 1], labels[n - 1]);
    }
  }

  /** A run from the start, with the states it goes through. */
  predicate FromStart(states: seq<System>, labels: seq<Label>) {
    Path(states, labels) && states[0].flight == Flight(map[], map[], map[])
  }

  /**
   What any call returns, in every run. From the cache: the configuration of an entry its
   first read found, still unexpired when it looked at the clock. As a leader: such an entry
   of its second read, or what its source said. As a waiter: what the call it found in its
   key's slot led to. Cancelled: only the context's error, and only while it waited.
   */
  lemma {:induction false} ReturnsAreAccountedFor(states: seq<System>, labels: seq<Label>, n: nat, id: nat)
    requires FromStart(states, labels) && n <= |labels|
    requires id in states[n].flight.loaders && states[n].flight.loaders[id].phase.Done?
    ensures
      var Loader(key, Done(outcome, origin)) := states[n].flight.loaders[id];
      match origin
      case FromCache => Hit(states, labels, n, FirstPeek(id), FirstClock(id), key, outcome)
      case Led => LedTo(states, labels, n, id, key, outcome)
      case Joined(leader) =>
        Joins(states, labels, n, id, key, leader) && LedTo(states, labels, n, leader, key, outcome)
      case Cancelled => outcome.err == Some(ContextDone) && CancelledBefore(labels, n, id)
  {
    SingleFlightOnPaths(states, labels, n);
    AlwaysAccounted(states, labels, n, id);
    var origin := states[n].flight.loaders[id].phase.origin;
    if origin.Joined? {
      AlwaysAccounted(states, labels, n, origin.leader);
      JoinedLeaderIsDone(states[n].flight, id, origin.leader);
    }
  }

  lemma JoinedLeaderIsDone(f: Flight, id: nat, leader: nat)
    requires SingleFlight(f) && id in f.loaders && f.loaders[id].phase.Done?
    requires f.loaders[id].phase.origin == Joined(leader)
    ensures leader in f.loaders && f.loaders[leader].key == f.loaders[id].key
    ensures f.loaders[leader].phase == Done(f.loaders[id].phase.outcome, Led)
  {
  }

  // ----- Expiry decides the first read -----

  /** Phases a call reaches without, or after, a miss of its first read. */
  predicate MissedFirst(phase: Phase) {
    !phase.FirstRead? && !phase.FirstCheck? && !(phase.Done? && phase.origin.FromCache?)
  }

  lemma MissesStayMissed(s: System, l: Label, id: nat)
    requires Enabled(s, l) && id in s.flight.loaders && MissedFirst(s.flight.loaders[id].phase)
    ensures id in Next(s, l).flight.loaders && MissedFirst(Next(s, l).flight.loaders[id].phase)
  {
    FlightSteps(s, l);
    if !ActsOutsideCalls(l) && l.id != id {
      OtherLoadersStay(s, l, id);
    }
  }

  lemma ReturnsStayReturned(s: System, l: Label, id: nat)
    requires Enabled(s, l) && id in s.flight.loaders && s.flight.loaders[id].phase.Done?
    ensures id in Next(s, l).flight.loaders && Next(s, l).flight.loaders[id] == s.flight.loaders[id]
  {
    FlightSteps(s, l);
    if !ActsOutsideCalls(l) && l.id != id {
      OtherLoadersStay(s, l, id);
    }
  }

  lemma {:induction false} FirstReadIsFinal(states: seq<System>, labels: seq<Label>, m: nat, n: nat, id: nat)
    requires Path(states, labels) && m <= n <= |labels| && id in states[m].flight.loaders
    ensures MissedFirst(states[m].flight.loaders[id].phase) ==>
      id in states[n].flight.loaders && MissedFirst(states[n].flight.loaders[id].phase)
    ensures states[m].flight.loaders[id].phase.Done? ==>
      id in states[n].flight.loaders && states[n].flight.loaders[id] == states[m].flight.loaders[id]
  {
    if m < n {
      FirstReadIsFinal(states, labels, m, n - 1, id);
      assert Step(states, labels, n - 1);
      if MissedFirst(states[m].flight.loaders[id].phase) {
        MissesStayMissed(states[n - 1], labels[n - 1], id);
      }
      if states[m].flight.loaders[id].phase.Done? {
        ReturnsStayReturned(states[n - 1], labels[n - 1], id);
      }
    }
  }

  /** At its clock step a call returns the entry, or misses for good. */
  lemma ClockStepDecides(s: System, id: nat)
    requires Enabled(s, FirstClock(id))
    ensures
      var phase, t := s.flight.loaders[id].phase, Next(s, FirstClock(id)).flight;
      && phase.FirstCheck? && id in t.loaders
      && (s.now < phase.entry.expiresAt <==> t.loaders[id].phase == Done(Outcome(phase.entry.config, None), FromCache))
      && (phase.entry.expiresAt <= s.now <==> MissedFirst(t.loaders[id].phase))
  {
  }

  /**
   A call that looks at the clock after its first read found an entry returns from the cache
   if and only if the clock is before the entry's expiry; otherwise it never does.
   */
  lemma {:induction false} ExpiryDecidesTheFirstRead(
    states: seq<System>, labels: seq<Label>, j: nat, n: nat, id: nat
  ) returns (i: nat)
    requires FromStart(states, labels) && j < n <= |labels| && labels[j] == FirstClock(id)
    ensures i < j && labels[i] == FirstPeek(id)
    ensures id in states[j].flight.loaders && states[j].flight.loaders[id].key in states[i].cache.entries
    ensures
      var entry := states[i].cache.entries[states[j].flight.loaders[id].key];
      && id in states[n].flight.loaders
      && (states[j].now < entry.expiresAt ==>
            states[n].flight.loaders[id].phase == Done(Outcome(entry.config, None), FromCache))
      && (entry.expiresAt <= states[j].now ==> MissedFirst(states[n].flight.loaders[id].phase))
  {
    assert Step(states, labels, j);
    AlwaysAccounted(states, labels, j, id);
    ClockStepDecides(states[j], id);
    FirstReadIsFinal(states, labels, j + 1, n, id);
    var Loader(key, phase) := states[j].flight.loaders[id];
    i :| i < j && FoundAt(states, labels, i, FirstPeek(id), key, phase.entry);
  }

  /**
   The same for the leader's second read: an unexpired entry becomes the call's outcome and
   the lead is over; an expired one leads on to the source.
   */
  lemma SecondClockStepDecides(s: System, id: nat)
    requires Enabled(s, VersionedClock(id))
    ensures
      var entry, t := s.flight.loaders[id].phase.lead.entry, Next(s, VersionedClock(id)).flight;
      && id in t.loaders && id in t.calls && t.loaders[id].phase.Leading?
      && (s.now < entry.expiresAt <==> t.loaders[id].phase.lead == Releasing)
      && (s.now < entry.expiresAt ==> t.calls[id].outcome == Outcome(entry.config, None))
      && (entry.expiresAt <= s.now ==>
            var lead := s.flight.loaders[id].phase.lead;
            t.loaders[id].phase.lead == VersionedRecheck(lead.token, lead.readAt))
  {
  }

  // ----- Fills -----

  /** A landing fill caches, for the ttl from its clock sample, what the leader's source said. */
  lemma {:induction false} LandedFillsComeFromTheSource(states: seq<System>, labels: seq<Label>, n: nat, id: nat)
    requires FromStart(states, labels) && n < |labels| && labels[n].TryFill? && labels[n].id == id
    requires states[n + 1].cache != states[n].cache
    ensures
      && id in states[n].flight.loaders
      && var key, cache := states[n].flight.loaders[id].key, states[n + 1].cache;
      && key in cache.entries && cache.entries[key].expiresAt == labels[n].sampledAt + states[n].cache.ttl
      && Answered(states, labels, n, id, key, Outcome(cache.entries[key].config, None))
  {
    assert Step(states, labels, n);
    AlwaysAccounted(states, labels, n, id);
    var key, call := states[n].flight.loaders[id].key, states[n].flight.calls[id];
    assert call.outcome == Outcome(call.outcome.config, None);
  }

  /** The read of the version failed, and nothing was cached for it since. */
  predicate HoldsNoToken(phase: Phase) {
    (phase.Leading? && phase.lead.Window? && phase.lead.token == "") || phase == Leading(Releasing) || phase.Done?
  }

  lemma TokensStayEmpty(s: System, l: Label, id: nat)
    requires Enabled(s, l) && id in s.flight.loaders && HoldsNoToken(s.flight.loaders[id].phase)
    ensures id in Next(s, l).flight.loaders && HoldsNoToken(Next(s, l).flight.loaders[id].phase)
  {
    FlightSteps(s, l);
    if !ActsOutsideCalls(l) && l.id != id {
      OtherLoadersStay(s, l, id);
    }
  }

  lemma {:induction false} NoTokenSince(states: seq<System>, labels: seq<Label>, i: nat, n: nat, id: nat)
    requires Path(states, labels) && i < n <= |labels| && labels[i] == VersionedGetFails(id)
    ensures id in states[n].flight.loaders && HoldsNoToken(states[n].flight.loaders[id].phase)
  {
    assert Step(states, labels, n - 1);
    if i + 1 < n {
      NoTokenSince(states, labels, i, n - 1, id);
      TokensStayEmpty(states[n - 1], labels[n - 1], id);
    }
  }

  /** A leader whose versioned read failed never fills the cache. */
  lemma {:induction false} NoFillAfterAFailedRead(states: seq<System>, labels: seq<Label>, i: nat, n: nat, id: nat)
    requires Path(states, labels) && i < n < |labels|
    requires labels[i] == VersionedGetFails(id) && labels[n].TryFill? && labels[n].id == id
    ensures states[n + 1].cache == states[n].cache
  {
    assert Step(states, labels, n);
    NoTokenSince(states, labels, i, n, id);
    TokensIdentifyVersions(states[n].cache.version, states[n].cache.version);
  }

  // ----- Published updates are served -----

  /** Publishing a configuration stores it for the ttl from the clock sample. */
  lemma PublishStores(s: System, key: CacheKey, config: ContainerConfig, sampledAt: Time)
    requires key in s.pending && s.pending[key] == Put(config) && sampledAt <= s.now
    ensures Enabled(s, Publish(key, sampledAt))
    ensures
      var t := Next(s, Publish(key, sampledAt));
      && key in t.cache.entries && t.cache.entries[key] == Entry(config, sampledAt + s.cache.ttl)
      && t.now == s.now && t.flight == s.flight
  {
  }

  /** Publishing a deletion removes the entry, and makes every token read before it useless. */
  lemma PublishRemoves(s: System, key: CacheKey)
    requires key in s.pending && s.pending[key] == Remove
    ensures Enabled(s, Publish(key, s.now))
    ensures
      var t := Next(s, Publish(key, s.now));
      && key !in t.cache.entries && t.cache.entries == s.cache.entries - {key}
      && !FillLands(t.cache, Token(s.cache.version))
  {
    TokensIdentifyVersions(Bump(s.cache.version), s.cache.version);
  }

  /** A new call that reads its key at once and looks at the clock after the given time. */
  function OpenAndWait(id: nat, key: CacheKey, elapsed: nat): seq<Label> {
    [Arrive(id, key), FirstPeek(id), Tick(elapsed)] + [FirstClock(id)]
  }

  lemma NewcomerFindsEntry(s: System, id: nat, key: CacheKey, elapsed: nat)
    requires key in s.cache.entries && id !in s.flight.loaders
    ensures Executable(s, [Arrive(id, key), FirstPeek(id), Tick(elapsed)])
    ensures
      var t := After(s, [Arrive(id, key), FirstPeek(id), Tick(elapsed)]);
      && id in t.flight.loaders && t.flight.loaders[id] == Loader(key, FirstCheck(s.cache.entries[key]))
      && t.now == s.now + elapsed
  {
    var arrived := Next(s, Arrive(id, key));
    assert arrived.flight.loaders[id] == Loader(key, FirstRead) && arrived.cache == s.cache;
    ThreeSteps(s, Arrive(id, key), FirstPeek(id), Tick(elapsed));
  }

  /**
   A cached configuration is returned by an open of its key, without asking the source, if
   and only if the open looks at the clock before the entry expires.
   */
  lemma {:induction false} CachedConfigurationIsServed(s: System, id: nat, key: CacheKey, elapsed: nat)
    requires key in s.cache.entries && id !in s.flight.loaders
    ensures Executable(s, OpenAndWait(id, key, elapsed))
    ensures
      var entry, t := s.cache.entries[key], After(s, OpenAndWait(id, key, elapsed));
      && id in t.flight.loaders
      && (t.flight.loaders[id] == Loader(key, Done(Outcome(entry.config, None), FromCache))
          <==> s.now + elapsed < entry.expiresAt)
  {
    NewcomerFindsEntry(s, id, key, elapsed);
    var front := [Arrive(id, key), FirstPeek(id), Tick(elapsed)];
    ClockStepDecides(After(s, front), id);
    ClockKeepsKey(After(s, front), id);
    Extend(s, front, FirstClock(id));
  }

  lemma ClockKeepsKey(s: System, id: nat)
    requires Enabled(s, FirstClock(id))
    ensures id in Next(s, FirstClock(id)).flight.loaders
    ensures Next(s, FirstClock(id)).flight.loaders[id].key == s.flight.loaders[id].key
  {
  }
}
