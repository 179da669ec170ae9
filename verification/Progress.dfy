/**
 Nobody waits forever: from every reachable state each call of Load has a short schedule
 to its return, made of its own steps and of its leader's, with no cancellation or failure.
 */
module Progress {
  import opened ConfigTypes
  import opened CacheModel
  import opened LoaderProtocol
  import opened Schedules

  /** The next undisturbed step of a call that is not waiting. */
  function OwnStep(s: System, id: nat): Label
    requires id in s.flight.loaders
    requires !s.flight.loaders[id].phase.Done? && !s.flight.loaders[id].phase.Waiting?
  {
    match s.flight.loaders[id].phase
    case FirstRead => FirstPeek(id)
    case FirstCheck(_) => FirstClock(id)
    case FirstRecheck => FirstClean(id)
    case Electing => Elect(id)
    case Leading(lead) =>
      match lead
      case VersionedRead => VersionedPeek(id)
      case VersionedCheck(_, _, _) => VersionedClock(id)
      case VersionedRecheck(_, _) => VersionedClean(id)
      case Releasing => Release(id)
      case Window(_, _, stage) =>
        match stage
        case BeforeSource => SourceBegin(id)
        case InSource => SourceReads(id, NO_CONFIG)
        case SourceAnswered(_) => SourceReturns(id)
        case Filling => TryFill(id, s.now)
  }

  function LeadSteps(lead: Lead): nat {
    match lead
    case VersionedRead => 8
    case VersionedCheck(_, _, _) => 7
    case VersionedRecheck(_, _) => 6
    case Window(_, _, stage) =>
      if stage.BeforeSource? then 5 else if stage.InSource? then 4 else if stage.SourceAnswered? then 3 else 2
    case Releasing => 1
  }

  /** No more steps than these are needed; a waiter needs its leader's too. */
  function StepsLeft(f: Flight, id: nat): nat
    requires id in f.loaders
  {
    match f.loaders[id].phase
    case FirstRead => 13
    case FirstCheck(_) => 12
    case FirstRecheck => 11
    case Electing => 10
    case Waiting(leader) =>
      if leader in f.loaders && f.loaders[leader].phase.Leading? then 1 + LeadSteps(f.loaders[leader].phase.lead) else 1
    case Leading(lead) => LeadSteps(lead)
    case Done(_, _) => 0
  }

  /** The call whose steps may be needed: the one joined, the one in the slot, or the call itself. */
  function LeaderOf(f: Flight, id: nat): nat
    requires id in f.loaders
  {
    var Loader(key, phase) := f.loaders[id];
    if phase.Waiting? then phase.leader else if key in f.loads then f.loads[key] else id
  }

  /** Who moves next: a waiter whose leader is still at work waits for it. */
  function Mover(f: Flight, id: nat): nat
    requires id in f.loaders
  {
    var phase := f.loaders[id].phase;
    if phase.Waiting? && phase.leader in f.loaders && phase.leader in f.calls && f.calls[phase.leader].open
    then phase.leader else id
  }

  function NextStep(s: System, id: nat): Label
    requires SingleFlight(s.flight) && id in s.flight.loaders && !s.flight.loaders[id].phase.Done?
  {
    var mover := Mover(s.flight, id);
    if s.flight.loaders[mover].phase.Waiting? then WaitEnds(id) else OwnStep(s, mover)
  }

  /** A step of the call or its leader that no cancellation, cache outage or source failure causes. */
  predicate Undisturbed(l: Label, id: nat, leader: nat) {
    && !ActsOutsideCalls(l) && !l.Arrive? && l.id in {id, leader}
    && !l.FirstGetFails? && !l.WaitCancelled? && !l.VersionedGetFails? && !l.SourceFails? && !l.FillCancelled?
  }

  lemma OwnStepIsEnabled(s: System, id: nat)
    requires SingleFlight(s.flight) && id in s.flight.loaders
    requires !s.flight.loaders[id].phase.Done? && !s.flight.loaders[id].phase.Waiting?
    ensures OwnStep(s, id).id == id && Enabled(s, OwnStep(s, id)) && Undisturbed(OwnStep(s, id), id, id)
  {
  }

  /** A leader's step brings it closer to its release, which closes its call. */
  lemma LeadShrinks(s: System, id: nat)
    requires id in s.flight.loaders && s.flight.loaders[id].phase.Leading? && Enabled(s, OwnStep(s, id))
    ensures
      var before, t := s.flight.loaders[id].phase.lead, Next(s, OwnStep(s, id)).flight;
      && id in t.loaders
      && if t.loaders[id].phase.Leading? then LeadSteps(t.loaders[id].phase.lead) < LeadSteps(before)
         else t.loaders[id].phase.Done?
  {
    var lead := s.flight.loaders[id].phase.lead;
    if !lead.Releasing? {
      WindowShrinks(s, id);
    }
  }

  lemma WindowShrinks(s: System, id: nat)
    requires id in s.flight.loaders && s.flight.loaders[id].phase.Leading?
    requires !s.flight.loaders[id].phase.lead.Releasing?
    requires Enabled(s, OwnStep(s, id))
    ensures
      var next := NextPhase(s, OwnStep(s, id));
      && next.Leading? && LeadSteps(next.lead) < LeadSteps(s.flight.loaders[id].phase.lead)
      && Next(s, OwnStep(s, id)).flight == Advance(s.flight, id, next, Assigned(s, OwnStep(s, id)))
  {
  }

  /** Up to the election a call moves on and touches no slot. */
  lemma ReadingShrinks(s: System, id: nat)
    requires id in s.flight.loaders
    requires
      var phase := s.flight.loaders[id].phase;
      phase.FirstRead? || phase.FirstCheck? || phase.FirstRecheck?
    requires Enabled(s, OwnStep(s, id))
    ensures
      var t := Next(s, OwnStep(s, id)).flight;
      id in t.loaders && StepsLeft(t, id) < StepsLeft(s.flight, id) && LeaderOf(t, id) == LeaderOf(s.flight, id)
  {
  }

  /** Then it leads, or waits for the call in its slot. */
  lemma CallShrinks(s: System, id: nat)
    requires SingleFlight(s.flight) && id in s.flight.loaders
    requires
      var phase := s.flight.loaders[id].phase;
      !phase.Done? && !phase.Waiting? && !phase.Leading?
    requires Enabled(s, OwnStep(s, id))
    ensures
      var t := Next(s, OwnStep(s, id)).flight;
      id in t.loaders && StepsLeft(t, id) < StepsLeft(s.flight, id) && LeaderOf(t, id) == LeaderOf(s.flight, id)
  {
    if s.flight.loaders[id].phase.Electing? {
      ElectionShrinks(s.flight, id);
      assert Next(s, Elect(id)).flight == TakeSlot(s.flight, id);
    } else {
      ReadingShrinks(s, id);
    }
  }

  lemma ElectionShrinks(f: Flight, id: nat)
    requires SingleFlight(f) && id in f.loaders && f.loaders[id].phase.Electing?
    ensures
      var t := TakeSlot(f, id);
      id in t.loaders && StepsLeft(t, id) < StepsLeft(f, id) && LeaderOf(t, id) == LeaderOf(f, id)
  {
  }

  lemma LeaderLeadsItself(f: Flight, id: nat)
    requires SingleFlight(f) && id in f.loaders && f.loaders[id].phase.Leading?
    ensures LeaderOf(f, id) == id
  {
    assert f.calls[id].open;
  }

  lemma OwnLeadShrinks(s: System, id: nat)
    requires SingleFlight(s.flight) && id in s.flight.loaders && s.flight.loaders[id].phase.Leading?
    requires Enabled(s, OwnStep(s, id))
    ensures
      var t := Next(s, OwnStep(s, id)).flight;
      && LeaderOf(s.flight, id) == id
      && id in t.loaders && StepsLeft(t, id) < StepsLeft(s.flight, id)
      && (!t.loaders[id].phase.Done? ==> LeaderOf(t, id) == id)
  {
    LeadShrinks(s, id);
    SingleFlightNext(s, OwnStep(s, id));
    LeaderStays(s.flight, Next(s, OwnStep(s, id)).flight, id);
  }

  lemma LeaderStays(f: Flight, g: Flight, id: nat)
    requires SingleFlight(f) && id in f.loaders && f.loaders[id].phase.Leading?
    requires SingleFlight(g) && id in g.loaders
    requires
      var before, after := f.loaders[id].phase, g.loaders[id].phase;
      if after.Leading? then LeadSteps(after.lead) < LeadSteps(before.lead) else after.Done?
    ensures LeaderOf(f, id) == id && StepsLeft(g, id) < StepsLeft(f, id)
    ensures !g.loaders[id].phase.Done? ==> LeaderOf(g, id) == id
  {
    LeaderLeadsItself(f, id);
    if g.loaders[id].phase.Leading? {
      LeaderLeadsItself(g, id);
    }
  }

  lemma WakingFinishes(s: System, id: nat)
    requires SingleFlight(s.flight) && id in s.flight.loaders && s.flight.loaders[id].phase.Waiting?
    requires Mover(s.flight, id) == id
    ensures Enabled(s, WaitEnds(id)) && id in Next(s, WaitEnds(id)).flight.loaders
    ensures Next(s, WaitEnds(id)).flight.loaders[id].phase.Done?
  {
  }

  lemma LeaderMovesForWaiter(s: System, id: nat, leader: nat)
    requires SingleFlight(s.flight) && id in s.flight.loaders && s.flight.loaders[id].phase == Waiting(leader)
    requires leader in s.flight.loaders && s.flight.loaders[leader].phase.Leading?
    requires Enabled(s, OwnStep(s, leader))
    ensures
      var t := Next(s, OwnStep(s, leader)).flight;
      id in t.loaders && StepsLeft(t, id) < StepsLeft(s.flight, id) && LeaderOf(t, id) == leader
  {
    OwnStepIsEnabled(s, leader);
    OtherLoadersStay(s, OwnStep(s, leader), id);
    LeadShrinks(s, leader);
  }

  /** Every such step is enabled, undisturbed, and leaves less to do. */
  lemma {:induction false} NextStepShrinks(s: System, id: nat)
    requires SingleFlight(s.flight) && id in s.flight.loaders && !s.flight.loaders[id].phase.Done?
    ensures
      var l := NextStep(s, id);
      && Enabled(s, l) && Undisturbed(l, id, LeaderOf(s.flight, id))
      && var t := Next(s, l).flight;
      && id in t.loaders && StepsLeft(t, id) < StepsLeft(s.flight, id)
      && (!t.loaders[id].phase.Done? ==> LeaderOf(t, id) == LeaderOf(s.flight, id))
  {
    var mover := Mover(s.flight, id);
    if s.flight.loaders[mover].phase.Waiting? {
      WakingFinishes(s, id);
    } else {
      OwnStepIsEnabled(s, mover);
      if mover != id {
        LeaderMovesForWaiter(s, id, mover);
      } else if s.flight.loaders[id].phase.Leading? {
        OwnLeadShrinks(s, id);
      } else {
        CallShrinks(s, id);
      }
    }
  }

  predicate Finishes(s: System, labels: seq<Label>, id: nat, leader: nat) {
    && Executable(s, labels) && (forall i :: 0 <= i < |labels| ==> Undisturbed(labels[i], id, leader))
    && id in After(s, labels).flight.loaders && After(s, labels).flight.loaders[id].phase.Done?
  }

  ghost predicate CanFinish(s: System, id: nat, leader: nat, steps: nat) {
    exists labels :: Finishes(s, labels, id, leader) && |labels| <= steps
  }

  lemma {:induction false} StepThenFinish(s: System, l: Label, id: nat, leader: nat, steps: nat)
    requires Enabled(s, l) && Undisturbed(l, id, leader) && CanFinish(Next(s, l), id, leader, steps)
    ensures CanFinish(s, id, leader, steps + 1)
  {
    var labels :| Finishes(Next(s, l), labels, id, leader) && |labels| <= steps;
    StepFirst(s, l, labels);
    assert Finishes(s, [l] + labels, id, leader);
  }

  lemma {:induction false} LoaderFinishes(s: System, id: nat, leader: nat, steps: nat)
    requires SingleFlight(s.flight) && id in s.flight.loaders && StepsLeft(s.flight, id) <= steps
    requires !s.flight.loaders[id].phase.Done? ==> leader == LeaderOf(s.flight, id)
    ensures CanFinish(s, id, leader, steps)
    decreases steps
  {
    if s.flight.loaders[id].phase.Done? {
      AlreadyFinished(s, id, leader, steps);
    } else {
      NextStepShrinks(s, id);
      var l := NextStep(s, id);
      SingleFlightNext(s, l);
      LoaderFinishes(Next(s, l), id, leader, steps - 1);
      StepThenFinish(s, l, id, leader, steps - 1);
    }
  }

  lemma AlreadyFinished(s: System, id: nat, leader: nat, steps: nat)
    requires id in s.flight.loaders && s.flight.loaders[id].phase.Done?
    ensures CanFinish(s, id, leader, steps)
  {
    assert Finishes(s, [], id, leader);
  }

  lemma ThirteenSuffice(f: Flight, id: nat)
    requires id in f.loaders
    ensures StepsLeft(f, id) <= 13
  {
  }

  /**
   In every reachable state every call can return within thirteen steps, its own and those
   of the one call it waits for: no waiter is stranded as long as sources return.
   */
  lemma {:induction false} NoCallIsStranded(
    cache: Cache, now: Time, source: map<CacheKey, ContainerConfig>, labels: seq<Label>, id: nat
  )
    requires Executable(Initial(cache, now, source), labels)
    requires id in After(Initial(cache, now, source), labels).flight.loaders
    ensures
      var s := After(Initial(cache, now, source), labels);
      CanFinish(s, id, LeaderOf(s.flight, id), 13)
  {
    SingleFlightAlways(Initial(cache, now, source), labels);
    var s := After(Initial(cache, now, source), labels);
    ThirteenSuffice(s.flight, id);
    LoaderFinishes(s, id, LeaderOf(s.flight, id), 13);
  }
}
