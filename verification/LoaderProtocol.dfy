/**
 cachedConfigSource.Load as a step system: any number of concurrent calls on any keys,
 application writers that commit to the source and then publish to the cache, and the
 clock. Every critical section, clock sample and source read is a step of its own, so
 the races between them are all runs of this system.
 */
module LoaderProtocol {
  import opened Wrappers
  import opened ConfigTypes
  import opened CacheModel

  /** NotFound is a source's report that it has no such configuration; it may fail with any other error. */
  datatype LoadError = ContextDone | NotFound | SourceFailure(code: nat)

  /** The pair Load returns. */
  datatype Outcome = Outcome(config: ContainerConfig, err: Option<LoadError>)

  const NO_CONFIG := ContainerConfig("", TenantScoped, map[])

  /** How a finished call came by its outcome. */
  datatype Origin = FromCache | Led | Joined(leader: nat) | Cancelled

  /** Between the call of source.Load and the end of the fill. */
  datatype Stage = BeforeSource | InSource | SourceAnswered(answer: Outcome) | Filling

  /**
   Between winning the election and freeing the slot. token is what the versioned read
   returned ("" when it failed); readAt, auxiliary, is the number of cache mutations at
   that moment. A window opens when the versioned read misses.
   */
  datatype Lead =
    | VersionedRead
    | VersionedCheck(token: string, readAt: nat, entry: Entry)
    | VersionedRecheck(token: string, readAt: nat)
    | Window(token: string, readAt: nat, stage: Stage)
    | Releasing

  /** Where a call of Load stands. */
  datatype Phase =
    | FirstRead
    | FirstCheck(entry: Entry)
    | FirstRecheck
    | Electing
    | Waiting(leader: nat)
    | Leading(lead: Lead)
    | Done(outcome: Outcome, origin: Origin)

  datatype Loader = Loader(key: CacheKey, phase: Phase)

  /** configLoadCall; open says that the channel done is not closed. */
  datatype Call = Call(key: CacheKey, outcome: Outcome, open: bool)

  /** The goroutines inside Load, and the fields of cachedConfigSource they share. */
  datatype Flight = Flight(loaders: map<nat, Loader>, loads: map<CacheKey, nat>, calls: map<nat, Call>)

  /** A write the application has committed to the source and not yet published. */
  datatype Write = Put(config: ContainerConfig) | Remove

  /** Auxiliary counters; no step is guarded by them. */
  datatype History = History(mutations: nat, sourceLoads: map<CacheKey, nat>, filled: seq<CacheKey>)

  datatype System = System(
    cache: Cache,
    now: Time,
    source: map<CacheKey, ContainerConfig>,
    pending: map<CacheKey, Write>,
    flight: Flight,
    history: History
  )

  datatype Label =
    | Tick(elapsed: nat)
    | Commit(key: CacheKey, write: Write)
    | Publish(key: CacheKey, sampledAt: Time)
    | Clean(key: CacheKey)
    | Arrive(id: nat, key: CacheKey)
    | FirstPeek(id: nat)
    | FirstGetFails(id: nat)
    | FirstClock(id: nat)
    | FirstClean(id: nat)
    | Elect(id: nat)
    | WaitEnds(id: nat)
    | WaitCancelled(id: nat)
    | VersionedPeek(id: nat)
    | VersionedGetFails(id: nat)
    | VersionedClock(id: nat)
    | VersionedClean(id: nat)
    | SourceBegin(id: nat)
    | SourceReads(id: nat, beside: ContainerConfig)
    | SourceFails(id: nat, err: LoadError, beside: ContainerConfig)
    | SourceReturns(id: nat)
    | TryFill(id: nat, sampledAt: Time)
    | FillCancelled(id: nat)
    | Release(id: nat)

  function Initial(cache: Cache, now: Time, source: map<CacheKey, ContainerConfig>): System {
    System(cache, now, source, map[], Flight(map[], map[], map[]), History(cache.version, map[], []))
  }

  predicate ActsOutsideCalls(l: Label) {
    l.Tick? || l.Commit? || l.Publish? || l.Clean?
  }

  predicate AtStage(phase: Phase, stage: Stage) {
    phase.Leading? && phase.lead.Window? && phase.lead.stage == stage
  }

  /** The phase from which a call takes the step. */
  predicate AtPhase(l: Label, phase: Phase)
    requires !ActsOutsideCalls(l) && !l.Arrive?
  {
    match l
    case FirstPeek(_) => phase.FirstRead?
    case FirstGetFails(_) => phase.FirstRead?
    case FirstClock(_) => phase.FirstCheck?
    case FirstClean(_) => phase.FirstRecheck?
    case Elect(_) => phase.Electing?
    case WaitEnds(_) => phase.Waiting?
    case WaitCancelled(_) => phase.Waiting?
    case VersionedPeek(_) => phase.Leading? && phase.lead.VersionedRead?
    case VersionedGetFails(_) => phase.Leading? && phase.lead.VersionedRead?
    case VersionedClock(_) => phase.Leading? && phase.lead.VersionedCheck?
    case VersionedClean(_) => phase.Leading? && phase.lead.VersionedRecheck?
    case SourceBegin(_) => AtStage(phase, BeforeSource)
    case SourceReads(_, _) => AtStage(phase, InSource)
    case SourceFails(_, _, _) => AtStage(phase, InSource)
    case SourceReturns(_) => phase.Leading? && phase.lead.Window? && phase.lead.stage.SourceAnswered?
    case TryFill(_, _) => AtStage(phase, Filling)
    case FillCancelled(_) => AtStage(phase, Filling)
    case Release(_) => phase == Leading(Releasing)
  }

  predicate Enabled(s: System, l: Label) {
    if ActsOutsideCalls(l) then
      && (l.Commit? ==> l.key !in s.pending)
      && (l.Publish? ==> l.key in s.pending && l.sampledAt <= s.now)
    else if l.Arrive? then l.id !in s.flight.loaders
    else
      && l.id in s.flight.loaders
      && var phase := s.flight.loaders[l.id].phase;
      && AtPhase(l, phase)
      && (phase.Leading? ==> l.id in s.flight.calls)
      && (l.WaitEnds? ==> phase.leader in s.flight.calls && !s.flight.calls[phase.leader].open)
      && (l.TryFill? ==> l.sampledAt <= s.now)
      && (l.SourceFails? ==> !l.err.NotFound?)
  }

  function Move(f: Flight, id: nat, phase: Phase): Flight
    requires id in f.loaders
  {
    f.(loaders := f.loaders[id := f.loaders[id].(phase := phase)])
  }

  function Assign(f: Flight, id: nat, outcome: Outcome): Flight
    requires id in f.calls
  {
    f.(calls := f.calls[id := f.calls[id].(outcome := outcome)])
  }

  /** Join the call in the slot, or take the slot. */
  function TakeSlot(f: Flight, id: nat): Flight
    requires id in f.loaders
  {
    var key := f.loaders[id].key;
    if key in f.loads then Move(f, id, Waiting(f.loads[key]))
    else
      Move(f, id, Leading(VersionedRead)).(
        loads := f.loads[key := id],
        calls := f.calls[id := Call(key, Outcome(NO_CONFIG, None), true)])
  }

  /** Free the slot, close the channel and return. */
  function CloseCall(f: Flight, id: nat): Flight
    requires id in f.loaders && id in f.calls
  {
    Move(f, id, Done(f.calls[id].outcome, Led)).(
      loads := f.loads - {f.loaders[id].key},
      calls := f.calls[id := f.calls[id].(open := false)])
  }

  function Mutated(h: History): History {
    h.(mutations := h.mutations + 1)
  }

  function CountOf(counts: map<CacheKey, nat>, key: CacheKey): nat {
    if key in counts then counts[key] else 0
  }

  function SourceCalled(h: History, key: CacheKey): History {
    h.(sourceLoads := h.sourceLoads[key := CountOf(h.sourceLoads, key) + 1])
  }

  /** A source may return any configuration beside its error. */
  function ReadSource(source: map<CacheKey, ContainerConfig>, key: CacheKey, beside: ContainerConfig): Outcome {
    if key in source then Outcome(source[key], None) else Outcome(beside, Some(NotFound))
  }

  function CommitWrite(source: map<CacheKey, ContainerConfig>, key: CacheKey, write: Write)
    : map<CacheKey, ContainerConfig>
  {
    match write
    case Put(config) => source[key := config]
    case Remove => source - {key}
  }

  function PublishWrite(c: Cache, now: Time, key: CacheKey, write: Write, sampledAt: Time): Cache {
    match write
    case Put(config) => SetLocked(c, now, key, config, sampledAt)
    case Remove => DeleteLocked(c, key)
  }

  function NextOutside(s: System, l: Label): System
    requires ActsOutsideCalls(l) && Enabled(s, l)
  {
    match l
    case Tick(elapsed) => s.(now := s.now + elapsed)
    case Commit(key, write) => s.(source := CommitWrite(s.source, key, write), pending := s.pending[key := write])
    case Publish(key, sampledAt) =>
      s.(cache := PublishWrite(s.cache, s.now, key, s.pending[key], sampledAt),
         pending := s.pending - {key},
         history := Mutated(s.history))
    case Clean(key) => s.(cache := RecheckLocked(s.cache, s.now, key))
  }

  /** Moving one loader and perhaps assigning the outcome of the call it leads. */
  function Advance(f: Flight, id: nat, phase: Phase, result: Option<Outcome>): Flight
    requires id in f.loaders && (result.Some? ==> id in f.calls)
  {
    if result.Some? then Assign(Move(f, id, phase), id, result.value) else Move(f, id, phase)
  }

  /** Steps of an existing call other than the election and the release. */
  predicate Advances(l: Label) {
    !ActsOutsideCalls(l) && !l.Arrive? && !l.Elect? && !l.Release?
  }

  /** The phase to which such a step leads. */
  function NextPhase(s: System, l: Label): Phase
    requires Advances(l) && Enabled(s, l)
  {
    var Loader(key, phase) := s.flight.loaders[l.id];
    var found := Peek(s.cache, key);
    var token, readAt := Token(s.cache.version), s.history.mutations;
    match l
    case FirstPeek(_) => if found.Some? then FirstCheck(found.value) else Electing
    case FirstGetFails(_) => Electing
    case FirstClock(_) =>
      if Expired(phase.entry, s.now) then FirstRecheck else Done(Outcome(phase.entry.config, None), FromCache)
    case FirstClean(_) => Electing
    case WaitEnds(_) => Done(s.flight.calls[phase.leader].outcome, Joined(phase.leader))
    case WaitCancelled(_) => Done(Outcome(NO_CONFIG, Some(ContextDone)), Cancelled)
    case VersionedPeek(_) =>
      Leading(if found.Some? then VersionedCheck(token, readAt, found.value) else Window(token, readAt, BeforeSource))
    case VersionedGetFails(_) => Leading(Window("", readAt, BeforeSource))
    case VersionedClock(_) =>
      Leading(
        if Expired(phase.lead.entry, s.now) then VersionedRecheck(phase.lead.token, phase.lead.readAt) else Releasing)
    case VersionedClean(_) => Leading(Window(phase.lead.token, phase.lead.readAt, BeforeSource))
    case SourceBegin(_) => Leading(phase.lead.(stage := InSource))
    case SourceReads(_, beside) => Leading(phase.lead.(stage := SourceAnswered(ReadSource(s.source, key, beside))))
    case SourceFails(_, err, beside) => Leading(phase.lead.(stage := SourceAnswered(Outcome(beside, Some(err)))))
    case SourceReturns(_) =>
      Leading(if phase.lead.stage.answer.err.None? then phase.lead.(stage := Filling) else Releasing)
    case TryFill(_, _) => Leading(Releasing)
    case FillCancelled(_) => Leading(Releasing)
  }

  /** The outcome such a step assigns to the call its loader leads, if any. */
  function Assigned(s: System, l: Label): Option<Outcome>
    requires Advances(l) && Enabled(s, l)
  {
    var phase := s.flight.loaders[l.id].phase;
    if l.SourceReturns? then Some(phase.lead.stage.answer)
    else if l.VersionedClock? && !Expired(phase.lead.entry, s.now) then Some(Outcome(phase.lead.entry.config, None))
    else None
  }

  function NextFlight(s: System, l: Label): Flight
    requires !ActsOutsideCalls(l) && Enabled(s, l)
  {
    var f := s.flight;
    if l.Arrive? then f.(loaders := f.loaders[l.id := Loader(l.key, FirstRead)])
    else if l.Elect? then TakeSlot(f, l.id)
    else if l.Release? then CloseCall(f, l.id)
    else Advance(f, l.id, NextPhase(s, l), Assigned(s, l))
  }

  lemma OtherLoadersStay(s: System, l: Label, id: nat)
    requires Enabled(s, l) && !ActsOutsideCalls(l) && id != l.id
    ensures
      var f, g := s.flight, NextFlight(s, l);
      && (id in f.loaders <==> id in g.loaders) && (id in f.loaders ==> f.loaders[id] == g.loaders[id])
      && (id in f.calls <==> id in g.calls) && (id in f.calls ==> f.calls[id] == g.calls[id])
  {
  }

  predicate FillSucceeds(s: System, l: Label)
    requires Enabled(s, l)
  {
    l.TryFill? && FillLands(s.cache, s.flight.loaders[l.id].phase.lead.token)
  }

  function NextCache(s: System, l: Label): Cache
    requires !ActsOutsideCalls(l) && Enabled(s, l)
  {
    if l.FirstClean? || l.VersionedClean? then RecheckLocked(s.cache, s.now, s.flight.loaders[l.id].key)
    else if l.TryFill? then
      var Loader(key, phase) := s.flight.loaders[l.id];
      FillLocked(s.cache, key, s.flight.calls[l.id].outcome.config, l.sampledAt, phase.lead.token)
    else s.cache
  }

  function NextHistory(s: System, l: Label): History
    requires !ActsOutsideCalls(l) && Enabled(s, l)
  {
    if l.SourceBegin? then SourceCalled(s.history, s.flight.loaders[l.id].key)
    else if FillSucceeds(s, l) then
      Mutated(s.history).(filled := s.history.filled + [s.flight.loaders[l.id].key])
    else s.history
  }

  function Next(s: System, l: Label): System
    requires Enabled(s, l)
  {
    if ActsOutsideCalls(l) then NextOutside(s, l)
    else s.(flight := NextFlight(s, l), cache := NextCache(s, l), history := NextHistory(s, l))
  }

  /** Every label of the sequence is enabled where it occurs. */
  predicate Executable(s: System, labels: seq<Label>)
    decreases |labels|, 0
  {
    labels == [] ||
    var front := labels[..|labels| - 1];
    Executable(s, front) && Enabled(After(s, front), labels[|labels| - 1])
  }

  function After(s: System, labels: seq<Label>): System
    requires Executable(s, labels)
    decreases |labels|, 1
  {
    if labels == [] then s else Next(After(s, labels[..|labels| - 1]), labels[|labels| - 1])
  }

  // ----- Single flight -----

  /** A slot holds a call exactly while the call's channel is open. */
  predicate SlotsAreOpenCalls(f: Flight) {
    && (forall key :: key in f.loads ==>
          f.loads[key] in f.calls && f.calls[f.loads[key]].open && f.calls[f.loads[key]].key == key)
    && (forall id :: id in f.calls && f.calls[id].open ==>
          f.calls[id].key in f.loads && f.loads[f.calls[id].key] == id)
  }

  /** A call is open exactly while its creator leads; once closed, it holds what its creator returned. */
  predicate CallsBelongToLeaders(f: Flight) {
    && (forall id :: id in f.calls ==>
          && id in f.loaders && f.calls[id].key == f.loaders[id].key
          && (f.calls[id].open <==> f.loaders[id].phase.Leading?)
          && (!f.calls[id].open ==> f.loaders[id].phase == Done(f.calls[id].outcome, Led)))
    && (forall id :: id in f.loaders && f.loaders[id].phase.Leading? ==> id in f.calls)
  }

  predicate WaitersJoinCalls(f: Flight) {
    forall id :: id in f.loaders && f.loaders[id].phase.Waiting? ==>
      f.loaders[id].phase.leader in f.calls && f.calls[f.loaders[id].phase.leader].key == f.loaders[id].key
  }

  /** Where a returned outcome comes from. */
  predicate Explained(f: Flight, key: CacheKey, id: nat, outcome: Outcome, origin: Origin) {
    match origin
    case FromCache => outcome.err.None?
    case Led => id in f.calls && !f.calls[id].open && f.calls[id].outcome == outcome
    case Joined(leader) =>
      leader in f.calls && !f.calls[leader].open && f.calls[leader].key == key && f.calls[leader].outcome == outcome
    case Cancelled => outcome == Outcome(NO_CONFIG, Some(ContextDone))
  }

  predicate OutcomesExplained(f: Flight) {
    forall id :: id in f.loaders && f.loaders[id].phase.Done? ==>
      Explained(f, f.loaders[id].key, id, f.loaders[id].phase.outcome, f.loaders[id].phase.origin)
  }

  predicate SingleFlight(f: Flight) {
    SlotsAreOpenCalls(f) && CallsBelongToLeaders(f) && WaitersJoinCalls(f) && OutcomesExplained(f)
  }

  /** A call that has not returned moves on, keeps leading or not leading, and assigns only while it leads. */
  predicate MovesOn(f: Flight, id: nat, phase: Phase, result: Option<Outcome>) {
    && id in f.loaders && !f.loaders[id].phase.Done?
    && (phase.Leading? <==> f.loaders[id].phase.Leading?)
    && (result.Some? ==> phase.Leading? && id in f.calls)
  }

  predicate MayAdvance(f: Flight, id: nat, phase: Phase, result: Option<Outcome>) {
    && MovesOn(f, id, phase, result)
    && (phase.Waiting? ==> phase.leader in f.calls && f.calls[phase.leader].key == f.loaders[id].key)
    && (phase.Done? ==> phase.origin != Led && Explained(f, f.loaders[id].key, id, phase.outcome, phase.origin))
  }

  lemma AdvanceKeepsSlots(f: Flight, id: nat, phase: Phase, result: Option<Outcome>)
    requires SlotsAreOpenCalls(f) && WaitersJoinCalls(f) && MayAdvance(f, id, phase, result)
    ensures SlotsAreOpenCalls(Advance(f, id, phase, result))
    ensures WaitersJoinCalls(Advance(f, id, phase, result))
  {
  }

  lemma AdvanceKeepsCalls(f: Flight, id: nat, phase: Phase, result: Option<Outcome>)
    requires CallsBelongToLeaders(f) && MovesOn(f, id, phase, result)
    ensures CallsBelongToLeaders(Advance(f, id, phase, result))
  {
  }

  lemma AdvanceKeepsOutcomes(f: Flight, id: nat, phase: Phase, result: Option<Outcome>)
    requires CallsBelongToLeaders(f) && OutcomesExplained(f) && MayAdvance(f, id, phase, result)
    ensures OutcomesExplained(Advance(f, id, phase, result))
  {
  }

  lemma AdvanceIsSafe(f: Flight, id: nat, phase: Phase, result: Option<Outcome>)
    requires SingleFlight(f) && MayAdvance(f, id, phase, result)
    ensures SingleFlight(Advance(f, id, phase, result))
  {
    AdvanceKeepsSlots(f, id, phase, result);
    AdvanceKeepsCalls(f, id, phase, result);
    AdvanceKeepsOutcomes(f, id, phase, result);
  }

  lemma WinnerKeepsSlots(f: Flight, id: nat)
    requires SingleFlight(f)
    requires id in f.loaders && f.loaders[id].phase.Electing? && f.loaders[id].key !in f.loads
    ensures id !in f.calls
    ensures SlotsAreOpenCalls(TakeSlot(f, id))
  {
  }

  lemma WinnerKeepsCalls(f: Flight, id: nat)
    requires SingleFlight(f)
    requires id in f.loaders && f.loaders[id].phase.Electing? && f.loaders[id].key !in f.loads
    ensures CallsBelongToLeaders(TakeSlot(f, id))
  {
  }

  lemma WinnerKeepsOutcomes(f: Flight, id: nat)
    requires SingleFlight(f)
    requires id in f.loaders && f.loaders[id].phase.Electing? && f.loaders[id].key !in f.loads
    ensures WaitersJoinCalls(TakeSlot(f, id)) && OutcomesExplained(TakeSlot(f, id))
  {
    assert id !in f.calls;
  }

  lemma TakeSlotIsSafe(f: Flight, id: nat)
    requires SingleFlight(f)
    requires id in f.loaders && f.loaders[id].phase.Electing?
    ensures SingleFlight(TakeSlot(f, id))
  {
    if f.loaders[id].key in f.loads {
      AdvanceIsSafe(f, id, Waiting(f.loads[f.loaders[id].key]), None);
    } else {
      WinnerKeepsSlots(f, id);
      WinnerKeepsCalls(f, id);
      WinnerKeepsOutcomes(f, id);
    }
  }

  /** The call is about to be released. */
  predicate AtRelease(f: Flight, id: nat) {
    id in f.loaders && id in f.calls && f.loaders[id].phase == Leading(Releasing)
  }

  lemma ClosingKeepsSlots(f: Flight, id: nat)
    requires SlotsAreOpenCalls(f) && CallsBelongToLeaders(f) && AtRelease(f, id)
    ensures SlotsAreOpenCalls(CloseCall(f, id))
  {
    assert forall key :: key in f.loads && key != f.loaders[id].key ==> f.loads[key] != id;
  }

  lemma ClosingKeepsCalls(f: Flight, id: nat)
    requires CallsBelongToLeaders(f) && AtRelease(f, id)
    ensures CallsBelongToLeaders(CloseCall(f, id))
  {
  }

  lemma ClosingKeepsOutcomes(f: Flight, id: nat)
    requires CallsBelongToLeaders(f) && WaitersJoinCalls(f) && OutcomesExplained(f) && AtRelease(f, id)
    ensures WaitersJoinCalls(CloseCall(f, id)) && OutcomesExplained(CloseCall(f, id))
  {
  }

  lemma CloseCallIsSafe(f: Flight, id: nat)
    requires SingleFlight(f) && AtRelease(f, id)
    ensures SingleFlight(CloseCall(f, id))
  {
    ClosingKeepsSlots(f, id);
    ClosingKeepsCalls(f, id);
    ClosingKeepsOutcomes(f, id);
  }

  lemma ArrivalIsSafe(f: Flight, id: nat, key: CacheKey)
    requires SingleFlight(f) && id !in f.loaders
    ensures SingleFlight(f.(loaders := f.loaders[id := Loader(key, FirstRead)]))
  {
  }

  lemma StepsMayAdvance(s: System, l: Label)
    requires SingleFlight(s.flight) && Enabled(s, l) && Advances(l)
    ensures MayAdvance(s.flight, l.id, NextPhase(s, l), Assigned(s, l))
  {
  }

  lemma FlightSteps(s: System, l: Label)
    requires Enabled(s, l)
    ensures ActsOutsideCalls(l) ==> Next(s, l).flight == s.flight
    ensures !ActsOutsideCalls(l) ==> Next(s, l).flight == NextFlight(s, l)
  {
  }

  lemma {:induction false} SingleFlightNext(s: System, l: Label)
    requires SingleFlight(s.flight) && Enabled(s, l)
    ensures SingleFlight(Next(s, l).flight)
  {
    FlightSteps(s, l);
    if ActsOutsideCalls(l) {
      return;
    }
    if l.Arrive? {
      ArrivalIsSafe(s.flight, l.id, l.key);
    } else if l.Elect? {
      TakeSlotIsSafe(s.flight, l.id);
    } else if l.Release? {
      CloseCallIsSafe(s.flight, l.id);
    } else {
      StepsMayAdvance(s, l);
      AdvanceIsSafe(s.flight, l.id, NextPhase(s, l), Assigned(s, l));
    }
  }

  lemma {:induction false} SingleFlightAlways(s: System, labels: seq<Label>)
    requires SingleFlight(s.flight) && Executable(s, labels)
    ensures SingleFlight(After(s, labels).flight)
  {
    if labels != [] {
      var front := labels[..|labels| - 1];
      SingleFlightAlways(s, front);
      SingleFlightNext(After(s, front), labels[|labels| - 1]);
    }
  }

  predicate LeadsFor(f: Flight, id: nat, key: CacheKey) {
    id in f.loaders && f.loaders[id].key == key && f.loaders[id].phase.Leading?
  }

  /** source.Load has been called by this loader for this key and has not returned. */
  predicate CallsSourceFor(f: Flight, id: nat, key: CacheKey) {
    && LeadsFor(f, id, key) && f.loaders[id].phase.lead.Window?
    && (f.loaders[id].phase.lead.stage.InSource? || f.loaders[id].phase.lead.stage.SourceAnswered?)
  }

  ghost predicate OpenCallFor(f: Flight, key: CacheKey) {
    exists id :: id in f.calls && f.calls[id].open && f.calls[id].key == key
  }

  /**
   In every reachable state: a key's slot is taken exactly while a call for it has an open
   channel; each key has at most one leader, so its source.Load intervals never overlap.
   */
  lemma SingleFlightSafety(cache: Cache, now: Time, source: map<CacheKey, ContainerConfig>, labels: seq<Label>)
    requires Executable(Initial(cache, now, source), labels)
    ensures
      var f := After(Initial(cache, now, source), labels).flight;
      && (forall key :: key in f.loads <==> OpenCallFor(f, key))
      && (forall p, q, key :: LeadsFor(f, p, key) && LeadsFor(f, q, key) ==> p == q)
      && (forall p, q, key :: CallsSourceFor(f, p, key) && CallsSourceFor(f, q, key) ==> p == q)
  {
    SingleFlightAlways(Initial(cache, now, source), labels);
    var f := After(Initial(cache, now, source), labels).flight;
    forall key
      ensures key in f.loads <==> OpenCallFor(f, key)
    {
      if key in f.loads {
        assert f.calls[f.loads[key]].open;
      }
    }
  }

  /**
   A waiter returns its own context error or exactly what its leader returned, the
   leader's context error included.
   */
  lemma {:induction false} WaitersReturnTheLeadersOutcome(
    cache: Cache, now: Time, source: map<CacheKey, ContainerConfig>, labels: seq<Label>, id: nat
  )
    requires Executable(Initial(cache, now, source), labels)
    requires
      var f := After(Initial(cache, now, source), labels).flight;
      id in f.loaders && f.loaders[id].phase.Done? && !f.loaders[id].phase.origin.FromCache?
    ensures
      var f := After(Initial(cache, now, source), labels).flight;
      var Done(outcome, origin) := f.loaders[id].phase;
      match origin
      case Joined(leader) =>
        && leader in f.loaders && f.loaders[leader].key == f.loaders[id].key
        && f.loaders[leader].phase == Done(outcome, Led)
      case Cancelled => outcome == Outcome(NO_CONFIG, Some(ContextDone))
      case _ => origin == Led && id in f.calls && f.calls[id] == Call(f.loaders[id].key, outcome, false)
  {
    SingleFlightAlways(Initial(cache, now, source), labels);
  }

  /** Once closed, a call keeps its outcome; once returned, a loader keeps its result. */
  lemma {:induction false} ClosedCallsNeverChange(s: System, l: Label, id: nat)
    requires SingleFlight(s.flight) && Enabled(s, l)
    ensures id in s.flight.calls && !s.flight.calls[id].open ==>
      id in Next(s, l).flight.calls && Next(s, l).flight.calls[id] == s.flight.calls[id]
    ensures id in s.flight.loaders && s.flight.loaders[id].phase.Done? ==>
      id in Next(s, l).flight.loaders && Next(s, l).flight.loaders[id] == s.flight.loaders[id]
  {
    if !ActsOutsideCalls(l) && id != l.id {
      OtherLoadersStay(s, l, id);
    } else if Advances(l) {
      StepsMayAdvance(s, l);
    }
  }
}
