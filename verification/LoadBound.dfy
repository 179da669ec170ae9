/**
 How often the source is read. With nothing expiring, no application writes and a source
 that answers, N distinct keys cost at most N(N+1)/2 source loads, whatever the number of
 callers: a rejected fill is charged to another key's fill that landed in its window.
 */
module LoadBound {
  import opened ConfigTypes
  import opened CacheModel
  import opened LoaderProtocol
  import Coherence

  /** No lookup or recheck of this step meets an expired entry. */
  predicate MeetsNoExpiry(s: System, l: Label)
    requires Enabled(s, l)
  {
    match l
    case FirstClock(id) => !Expired(s.flight.loaders[id].phase.entry, s.now)
    case VersionedClock(id) => !Expired(s.flight.loaders[id].phase.lead.entry, s.now)
    case FirstClean(id) => Live(s.cache.entries, s.now) == s.cache.entries
    case VersionedClean(id) => Live(s.cache.entries, s.now) == s.cache.entries
    case Clean(key) => Live(s.cache.entries, s.now) == s.cache.entries
    case _ => true
  }

  /** No application write, no failing source, no cancelled leader, no expiry, and only the given keys. */
  predicate Quiet(s: System, l: Label, keys: set<CacheKey>)
    requires Enabled(s, l)
  {
    && !l.Commit? && !l.Publish? && !l.VersionedGetFails? && !l.SourceFails? && !l.FillCancelled?
    && (l.Arrive? ==> l.key in keys)
    && MeetsNoExpiry(s, l)
  }

  predicate AlwaysQuiet(s: System, labels: seq<Label>, keys: set<CacheKey>)
    requires Executable(s, labels)
    decreases |labels|
  {
    labels == [] ||
    var front := labels[..|labels| - 1];
    AlwaysQuiet(s, front, keys) && Quiet(After(s, front), labels[|labels| - 1], keys)
  }

  /** The number of times source.Load is called in a run. */
  function SourceCalls(labels: seq<Label>): nat {
    if labels == [] then 0
    else SourceCalls(labels[..|labels| - 1]) + if labels[|labels| - 1].SourceBegin? then 1 else 0
  }

  predicate NoDuplicates(keys: seq<CacheKey>) {
    forall i, j :: 0 <= i < j < |keys| ==> keys[i] != keys[j]
  }

  predicate InWindow(f: Flight, id: nat) {
    id in f.loaders && f.loaders[id].phase.Leading? && f.loaders[id].phase.lead.Window?
  }

  /** Every key was filled at most once, and is cached since. */
  predicate FilledAreCached(s: System, keys: set<CacheKey>) {
    var filled := s.history.filled;
    && NoDuplicates(filled)
    && forall i :: 0 <= i < |filled| ==> filled[i] in s.cache.entries && filled[i] in keys
  }

  /** Auxiliary facts about a quiet run that started with the counter at start. */
  predicate QuietState(s: System, keys: set<CacheKey>, start: nat) {
    && SingleFlight(s.flight)
    && s.history.mutations == start + |s.history.filled|
    && Coherence.VersionIsMutationCount(s)
    && FilledAreCached(s, keys)
    && (forall id :: id in s.flight.loaders ==> s.flight.loaders[id].key in keys)
    && (forall key :: key in keys ==> key in s.source)
    && s.history.sourceLoads.Keys <= keys
  }

  predicate LeadIsQuiet(s: System, id: nat, start: nat)
    requires id in s.flight.loaders && s.flight.loaders[id].phase.Leading?
  {
    var Loader(key, phase) := s.flight.loaders[id];
    match phase.lead
    case VersionedRecheck(_, _) => false
    case Window(token, readAt, stage) =>
      && start <= readAt <= s.history.mutations && token == Token(Advanced(0, readAt))
      && key !in s.cache.entries
      && (stage.SourceAnswered? ==> stage.answer.err.None?)
    case _ => true
  }

  predicate LeadsAreQuiet(s: System, start: nat) {
    forall id :: id in s.flight.loaders && s.flight.loaders[id].phase.Leading? ==> LeadIsQuiet(s, id, start)
  }

  /** Source loads a key may have used so far: all earlier ones ended before the current window opened. */
  function Allowance(s: System, key: CacheKey, start: nat): int {
    if key in s.flight.loads && InWindow(s.flight, s.flight.loads[key]) then
      var lead := s.flight.loaders[s.flight.loads[key]].phase.lead;
      lead.readAt - start + if lead.stage.BeforeSource? then 0 else 1
    else |s.history.filled|
  }

  ghost predicate CountsAreCharged(s: System, start: nat) {
    && (forall i :: 0 <= i < |s.history.filled| ==> CountOf(s.history.sourceLoads, s.history.filled[i]) <= i + 1)
    && (forall key :: key !in s.history.filled ==> CountOf(s.history.sourceLoads, key) <= Allowance(s, key, start))
  }

  ghost predicate Inv(s: System, keys: set<CacheKey>, start: nat) {
    QuietState(s, keys, start) && LeadsAreQuiet(s, start) && CountsAreCharged(s, start)
  }

  lemma QuietOutside(s: System, l: Label, keys: set<CacheKey>, start: nat)
    requires Inv(s, keys, start) && Enabled(s, l) && Quiet(s, l, keys) && ActsOutsideCalls(l)
    ensures Inv(Next(s, l), keys, start)
  {
    var t := Next(s, l);
    if l.Clean? {
      CleanIsIdle(s.cache, s.now, l.key);
    }
    forall id | id in t.flight.loaders && t.flight.loaders[id].phase.Leading?
      ensures LeadIsQuiet(t, id, start)
    {
      assert LeadIsQuiet(s, id, start);
    }
    forall key | key !in t.history.filled
      ensures CountOf(t.history.sourceLoads, key) <= Allowance(t, key, start)
    {
      assert Allowance(t, key, start) == Allowance(s, key, start);
    }
  }

  lemma CleanIsIdle(c: Cache, now: Time, key: CacheKey)
    requires Live(c.entries, now) == c.entries
    ensures RecheckLocked(c, now, key) == c
  {
    if key in c.entries {
      assert key in Live(c.entries, now);
    }
  }

  /** A step of a call other than a fill leaves the cache as it is. */
  lemma QuietCacheStays(s: System, l: Label, keys: set<CacheKey>)
    requires Enabled(s, l) && Quiet(s, l, keys) && !ActsOutsideCalls(l) && !FillSucceeds(s, l)
    ensures Next(s, l).cache == s.cache
    ensures Next(s, l).history.mutations == s.history.mutations && Next(s, l).history.filled == s.history.filled
  {
    if l.FirstClean? || l.VersionedClean? {
      CleanIsIdle(s.cache, s.now, s.flight.loaders[l.id].key);
    }
  }

  lemma LoadersKeepTheirKeys(s: System, l: Label, keys: set<CacheKey>)
    requires Enabled(s, l) && Quiet(s, l, keys) && !ActsOutsideCalls(l)
    requires forall id :: id in s.flight.loaders ==> s.flight.loaders[id].key in keys
    ensures forall id :: id in Next(s, l).flight.loaders ==> Next(s, l).flight.loaders[id].key in keys
  {
  }

  lemma QuietStateNext(s: System, l: Label, keys: set<CacheKey>, start: nat)
    requires Inv(s, keys, start) && Enabled(s, l) && Quiet(s, l, keys) && !ActsOutsideCalls(l)
    ensures QuietState(Next(s, l), keys, start)
  {
    SingleFlightNext(s, l);
    LoadersKeepTheirKeys(s, l, keys);
    if FillSucceeds(s, l) {
      assert LeadIsQuiet(s, l.id, start);
      FillExtendsOrder(s, l, keys);
    } else {
      QuietCacheStays(s, l, keys);
    }
    CountersStay(s, l, keys);
  }

  lemma CountersStay(s: System, l: Label, keys: set<CacheKey>)
    requires Enabled(s, l) && Quiet(s, l, keys) && !ActsOutsideCalls(l)
    requires Coherence.VersionIsMutationCount(s) && s.history.sourceLoads.Keys <= keys
    requires forall id :: id in s.flight.loaders ==> s.flight.loaders[id].key in keys
    ensures
      var t := Next(s, l);
      && Coherence.VersionIsMutationCount(t) && t.history.sourceLoads.Keys <= keys && t.source == s.source
      && t.history.mutations - |t.history.filled| == s.history.mutations - |s.history.filled|
  {
  }

  lemma FillExtendsOrder(s: System, l: Label, keys: set<CacheKey>)
    requires FilledAreCached(s, keys) && Enabled(s, l) && FillSucceeds(s, l)
    requires s.flight.loaders[l.id].key !in s.cache.entries && s.flight.loaders[l.id].key in keys
    ensures
      FilledAreCached(Next(s, l), keys) && |Next(s, l).history.filled| == |s.history.filled| + 1
  {
    var key := s.flight.loaders[l.id].key;
    assert Next(s, l).history.filled == s.history.filled + [key];
    assert Next(s, l).cache.entries.Keys == s.cache.entries.Keys + {key};
    assert key !in s.history.filled;
  }

  lemma QuietLeadsNext(s: System, l: Label, keys: set<CacheKey>, start: nat)
    requires Inv(s, keys, start) && Enabled(s, l) && Quiet(s, l, keys) && !ActsOutsideCalls(l)
    ensures LeadsAreQuiet(Next(s, l), start)
  {
    var t := Next(s, l);
    forall id | id in t.flight.loaders && t.flight.loaders[id].phase.Leading?
      ensures LeadIsQuiet(t, id, start)
    {
      if id != l.id {
        OtherLoadersStay(s, l, id);
        assert LeadIsQuiet(s, id, start);
        OtherLeadsStayQuiet(s, l, keys, start, id);
      } else if Advances(l) && !FillSucceeds(s, l) {
        StepsMayAdvance(s, l);
        assert LeadIsQuiet(s, id, start);
        QuietCacheStays(s, l, keys);
        OwnLeadStaysQuiet(s, l, keys, start);
      }
    }
  }

  lemma OtherLeadsStayQuiet(s: System, l: Label, keys: set<CacheKey>, start: nat, id: nat)
    requires SingleFlight(s.flight) && Enabled(s, l) && Quiet(s, l, keys) && !ActsOutsideCalls(l) && id != l.id
    requires id in s.flight.loaders && s.flight.loaders[id].phase.Leading? && LeadIsQuiet(s, id, start)
    requires id in Next(s, l).flight.loaders && Next(s, l).flight.loaders[id] == s.flight.loaders[id]
    ensures LeadIsQuiet(Next(s, l), id, start)
  {
    if FillSucceeds(s, l) {
      OneLeader(s.flight, id, l.id);
    } else {
      QuietCacheStays(s, l, keys);
    }
  }

  lemma OneLeader(f: Flight, p: nat, q: nat)
    requires SingleFlight(f)
    requires p in f.loaders && q in f.loaders && f.loaders[p].phase.Leading? && f.loaders[q].phase.Leading? && p != q
    ensures f.loaders[p].key != f.loaders[q].key
  {
  }

  lemma OwnLeadStaysQuiet(s: System, l: Label, keys: set<CacheKey>, start: nat)
    requires Coherence.VersionIsMutationCount(s) && start <= s.history.mutations
    requires Enabled(s, l) && Quiet(s, l, keys) && Advances(l) && !FillSucceeds(s, l)
    requires s.flight.loaders[l.id].phase.Leading? && LeadIsQuiet(s, l.id, start)
    requires s.flight.loaders[l.id].key in s.source && Next(s, l).cache == s.cache
    ensures l.id in Next(s, l).flight.loaders && Next(s, l).flight.loaders[l.id].phase.Leading?
    ensures LeadIsQuiet(Next(s, l), l.id, start)
  {
  }

  lemma OtherSlotsStay(s: System, l: Label, key: CacheKey)
    requires SingleFlight(s.flight) && Enabled(s, l) && !ActsOutsideCalls(l)
    requires l.id in s.flight.loaders ==> key != s.flight.loaders[l.id].key
    ensures key in s.flight.loads <==> key in Next(s, l).flight.loads
    ensures key in s.flight.loads ==> Next(s, l).flight.loads[key] == s.flight.loads[key] && s.flight.loads[key] != l.id
  {
    if key in s.flight.loads {
      SlotIsNotAnothers(s.flight, key, l.id);
    }
    SlotsChangeByKey(s, l, key);
  }

  lemma SlotIsNotAnothers(f: Flight, key: CacheKey, id: nat)
    requires SingleFlight(f) && key in f.loads && (id in f.loaders ==> key != f.loaders[id].key)
    ensures f.loads[key] != id
  {
    assert f.calls[f.loads[key]].key == key;
  }

  lemma SlotsChangeByKey(s: System, l: Label, key: CacheKey)
    requires Enabled(s, l) && !ActsOutsideCalls(l) && (l.id in s.flight.loaders ==> key != s.flight.loaders[l.id].key)
    ensures key in s.flight.loads <==> key in Next(s, l).flight.loads
    ensures key in s.flight.loads ==> Next(s, l).flight.loads[key] == s.flight.loads[key]
  {
  }

  /** The allowance of a key whose slot the step does not concern never shrinks. */
  lemma OtherAllowancesGrow(s: System, l: Label, start: nat, key: CacheKey)
    requires SingleFlight(s.flight) && Enabled(s, l) && !ActsOutsideCalls(l)
    requires l.id in s.flight.loaders ==> key != s.flight.loaders[l.id].key
    ensures Allowance(s, key, start) <= Allowance(Next(s, l), key, start)
  {
    OtherSlotsStay(s, l, key);
    if key in s.flight.loads {
      OtherLoadersStay(s, l, s.flight.loads[key]);
    }
    FilledGrows(s, l);
  }

  lemma FilledGrows(s: System, l: Label)
    requires Enabled(s, l) && !ActsOutsideCalls(l)
    ensures |s.history.filled| <= |Next(s, l).history.filled|
  {
  }

  /** A leader's step other than a fill leaves its key enough allowance. */
  lemma LeadersAllowanceGrows(s: System, l: Label, keys: set<CacheKey>, start: nat)
    requires Enabled(s, l) && Quiet(s, l, keys) && Advances(l) && !l.TryFill?
    requires s.history.mutations == start + |s.history.filled|
    requires s.flight.loaders[l.id].phase.Leading? && LeadIsQuiet(s, l.id, start)
    requires s.flight.loaders[l.id].key in s.flight.loads && s.flight.loads[s.flight.loaders[l.id].key] == l.id
    ensures
      var key := s.flight.loaders[l.id].key;
      Allowance(s, key, start) + (if l.SourceBegin? then 1 else 0) <= Allowance(Next(s, l), key, start)
  {
  }

  /** An election or a release leaves the key everything loaded so far. */
  lemma SlotStepAllowance(s: System, l: Label, start: nat)
    requires SingleFlight(s.flight) && Enabled(s, l) && (l.Elect? || l.Release?)
    ensures
      var key := s.flight.loaders[l.id].key;
      Allowance(s, key, start) <= Allowance(Next(s, l), key, start)
  {
    if l.Elect? {
      ElectionAllowance(s, l.id, start);
    } else {
      ReleaseAllowance(s, l.id, start);
    }
  }

  lemma ElectionAllowance(s: System, id: nat, start: nat)
    requires SingleFlight(s.flight) && Enabled(s, Elect(id))
    ensures
      var key := s.flight.loaders[id].key;
      Allowance(s, key, start) <= Allowance(Next(s, Elect(id)), key, start)
  {
    assert Next(s, Elect(id)) == s.(flight := TakeSlot(s.flight, id));
    assert s.flight.loaders[id].key in s.flight.loads ==> s.flight.loads[s.flight.loaders[id].key] != id;
  }

  lemma ReleaseAllowance(s: System, id: nat, start: nat)
    requires SingleFlight(s.flight) && Enabled(s, Release(id))
    ensures
      var key := s.flight.loaders[id].key;
      Allowance(s, key, start) <= Allowance(Next(s, Release(id)), key, start)
  {
    assert Next(s, Release(id)) == s.(flight := CloseCall(s.flight, id));
    assert s.flight.calls[id].open;
  }

  /** A step of a call that does not lead leaves its key's slot and leader alone. */
  lemma FollowersKeepAllowance(s: System, l: Label, start: nat)
    requires SingleFlight(s.flight) && Enabled(s, l) && Advances(l) && !s.flight.loaders[l.id].phase.Leading?
    ensures
      var key := s.flight.loaders[l.id].key;
      !l.SourceBegin? && Allowance(s, key, start) <= Allowance(Next(s, l), key, start)
  {
    var key := s.flight.loaders[l.id].key;
    assert Next(s, l).flight.loads == s.flight.loads;
    assert key in s.flight.loads ==> s.flight.loads[key] != l.id;
    if key in s.flight.loads {
      OtherLoadersStay(s, l, s.flight.loads[key]);
    }
    FilledGrows(s, l);
  }

  lemma OwnAllowanceGrows(s: System, l: Label, keys: set<CacheKey>, start: nat)
    requires SingleFlight(s.flight) && LeadsAreQuiet(s, start) && s.history.mutations == start + |s.history.filled|
    requires Enabled(s, l) && Quiet(s, l, keys) && !ActsOutsideCalls(l)
    requires !l.Arrive? && !l.TryFill?
    ensures
      var key := s.flight.loaders[l.id].key;
      Allowance(s, key, start) + (if l.SourceBegin? then 1 else 0) <= Allowance(Next(s, l), key, start)
  {
    if l.Elect? || l.Release? {
      SlotStepAllowance(s, l, start);
    } else if s.flight.loaders[l.id].phase.Leading? {
      assert LeadIsQuiet(s, l.id, start);
      LeadersAllowanceGrows(s, l, keys, start);
    } else {
      FollowersKeepAllowance(s, l, start);
    }
  }

  /** A rejected fill met another key's fill in its window. */
  lemma RejectedFillIsCharged(s: System, l: Label, keys: set<CacheKey>, start: nat)
    requires Inv(s, keys, start) && Enabled(s, l) && l.TryFill? && !FillSucceeds(s, l)
    ensures
      var key := s.flight.loaders[l.id].key;
      Allowance(s, key, start) <= Allowance(Next(s, l), key, start)
  {
    var Loader(key, phase) := s.flight.loaders[l.id];
    assert LeadIsQuiet(s, l.id, start);
    assert s.flight.loads[key] == l.id;
    assert phase.lead.readAt < s.history.mutations;
  }

  lemma LandedFillIsCharged(s: System, l: Label, keys: set<CacheKey>, start: nat)
    requires Inv(s, keys, start) && Enabled(s, l) && l.TryFill? && FillSucceeds(s, l)
    ensures
      var key := s.flight.loaders[l.id].key;
      key !in s.history.filled && CountOf(s.history.sourceLoads, key) <= |s.history.filled| + 1
  {
    var Loader(key, phase) := s.flight.loaders[l.id];
    assert LeadIsQuiet(s, l.id, start);
    assert s.flight.loads[key] == l.id;
  }

  lemma {:induction false} QuietCountsNext(s: System, l: Label, keys: set<CacheKey>, start: nat)
    requires Inv(s, keys, start) && Enabled(s, l) && Quiet(s, l, keys) && !ActsOutsideCalls(l)
    ensures CountsAreCharged(Next(s, l), start)
  {
    var t := Next(s, l);
    if FillSucceeds(s, l) {
      LandedFillIsCharged(s, l, keys, start);
    } else {
      QuietCacheStays(s, l, keys);
      if l.SourceBegin? {
        SourceNeedsUnfilledKey(s, l.id, start);
      }
    }
    forall key | key !in t.history.filled
      ensures CountOf(t.history.sourceLoads, key) <= Allowance(t, key, start)
    {
      UnfilledCountIsCharged(s, l, keys, start, key);
    }
  }

  lemma FilledGrowByOwnKey(s: System, l: Label)
    requires Enabled(s, l) && !ActsOutsideCalls(l)
    ensures
      Next(s, l).history.filled == s.history.filled + if FillSucceeds(s, l) then [s.flight.loaders[l.id].key] else []
  {
  }

  lemma CountsGrowAtSourceBegin(s: System, l: Label, key: CacheKey)
    requires Enabled(s, l) && !ActsOutsideCalls(l)
    ensures
      CountOf(Next(s, l).history.sourceLoads, key) ==
      CountOf(s.history.sourceLoads, key) + if l.SourceBegin? && s.flight.loaders[l.id].key == key then 1 else 0
  {
  }

  lemma UnfilledCountIsCharged(s: System, l: Label, keys: set<CacheKey>, start: nat, key: CacheKey)
    requires Inv(s, keys, start) && Enabled(s, l) && Quiet(s, l, keys) && !ActsOutsideCalls(l)
    requires key !in Next(s, l).history.filled
    ensures CountOf(Next(s, l).history.sourceLoads, key) <= Allowance(Next(s, l), key, start)
  {
    FilledGrowByOwnKey(s, l);
    CountsGrowAtSourceBegin(s, l, key);
    if l.id in s.flight.loaders && key == s.flight.loaders[l.id].key {
      if l.TryFill? {
        RejectedFillIsCharged(s, l, keys, start);
      } else {
        OwnAllowanceGrows(s, l, keys, start);
      }
    } else {
      OtherAllowancesGrow(s, l, start, key);
    }
  }

  lemma SourceNeedsUnfilledKey(s: System, id: nat, start: nat)
    requires LeadsAreQuiet(s, start) && InWindow(s.flight, id)
    requires forall i :: 0 <= i < |s.history.filled| ==> s.history.filled[i] in s.cache.entries
    ensures s.flight.loaders[id].key !in s.history.filled
  {
    assert LeadIsQuiet(s, id, start);
  }

  lemma InvNext(s: System, l: Label, keys: set<CacheKey>, start: nat)
    requires Inv(s, keys, start) && Enabled(s, l) && Quiet(s, l, keys)
    ensures Inv(Next(s, l), keys, start)
  {
    if ActsOutsideCalls(l) {
      QuietOutside(s, l, keys, start);
    } else {
      QuietStateNext(s, l, keys, start);
      QuietLeadsNext(s, l, keys, start);
      QuietCountsNext(s, l, keys, start);
    }
  }

  // ----- Adding the counts up -----

  ghost function SumOver(keys: set<CacheKey>, counts: map<CacheKey, nat>): nat {
    if keys == {} then 0
    else
      var key :| key in keys;
      CountOf(counts, key) + SumOver(keys - {key}, counts)
  }

  lemma {:induction false} SumRemove(keys: set<CacheKey>, key: CacheKey, counts: map<CacheKey, nat>)
    requires key in keys
    ensures SumOver(keys, counts) == CountOf(counts, key) + SumOver(keys - {key}, counts)
  {
    var picked :| picked in keys && SumOver(keys, counts) == CountOf(counts, picked) + SumOver(keys - {picked}, counts);
    if picked != key {
      SumRemove(keys - {picked}, key, counts);
      SumRemove(keys - {key}, picked, counts);
      assert keys - {picked} - {key} == keys - {key} - {picked};
    }
  }

  lemma {:induction false} SumIncrement(keys: set<CacheKey>, key: CacheKey, counts: map<CacheKey, nat>)
    requires key in keys
    ensures SumOver(keys, counts[key := CountOf(counts, key) + 1]) == SumOver(keys, counts) + 1
  {
    var more := counts[key := CountOf(counts, key) + 1];
    SumRemove(keys, key, counts);
    SumRemove(keys, key, more);
    SumAgrees(keys - {key}, counts, more);
  }

  lemma {:induction false} SumAgrees(keys: set<CacheKey>, a: map<CacheKey, nat>, b: map<CacheKey, nat>)
    requires forall key :: key in keys ==> CountOf(a, key) == CountOf(b, key)
    ensures SumOver(keys, a) == SumOver(keys, b)
  {
    if keys != {} {
      var key :| key in keys;
      SumRemove(keys, key, a);
      SumRemove(keys, key, b);
      SumAgrees(keys - {key}, a, b);
    }
  }

  lemma OneMore(n: nat, bound: nat)
    ensures n * bound + bound == (n + 1) * bound
  {
  }

  lemma {:induction false} SumAtMost(keys: set<CacheKey>, counts: map<CacheKey, nat>, bound: nat)
    requires forall key :: key in keys ==> CountOf(counts, key) <= bound
    ensures SumOver(keys, counts) <= |keys| * bound
  {
    if keys != {} {
      var key :| key in keys;
      SumRemove(keys, key, counts);
      SumAtMost(keys - {key}, counts, bound);
      assert |keys - {key}| == |keys| - 1;
      OneMore(|keys| - 1, bound);
    }
  }

  lemma NextTriangle(n: nat)
    ensures n * (n + 1) + 2 * (n + 1) == (n + 1) * (n + 1 + 1)
  {
  }

  /** Keys filled in order cost at most 1, 2, 3, ...; the others together cost at most rest. */
  lemma {:induction false} SumCharged(
    keys: set<CacheKey>, filled: seq<CacheKey>, counts: map<CacheKey, nat>, others: set<CacheKey>
  )
    requires NoDuplicates(filled)
    requires forall i :: 0 <= i < |filled| ==> filled[i] in keys && CountOf(counts, filled[i]) <= i + 1
    requires others == set key | key in keys && key !in filled
    ensures |keys| == |filled| + |others|
    ensures 2 * SumOver(keys, counts) <= |filled| * (|filled| + 1) + 2 * SumOver(others, counts)
    decreases |filled|
  {
    if filled == [] {
      assert others == keys;
    } else {
      var front, last := filled[..|filled| - 1], filled[|filled| - 1];
      SumRemove(keys, last, counts);
      assert others == set key | key in keys - {last} && key !in front;
      SumCharged(keys - {last}, front, counts, others);
      NextTriangle(|front|);
    }
  }

  lemma TriangleBound(n: nat, m: nat, rest: nat)
    requires m <= n && rest <= (n - m) * (m + 1)
    ensures m * (m + 1) + 2 * rest <= n * (n + 1)
  {
    var d := n - m;
    assert n * (n + 1) == m * (m + 1) + d * (2 * m + d + 1);
    if d > 0 {
      assert d * (2 * m + 2) <= d * (2 * m + d + 1);
    }
  }

  lemma UnfilledKeysCost(s: System, keys: set<CacheKey>, start: nat, key: CacheKey)
    requires Inv(s, keys, start) && key !in s.history.filled
    ensures CountOf(s.history.sourceLoads, key) <= |s.history.filled| + 1
  {
    if key in s.flight.loads && InWindow(s.flight, s.flight.loads[key]) {
      assert LeadIsQuiet(s, s.flight.loads[key], start);
    }
  }

  lemma ChargedSum(keys: set<CacheKey>, filled: seq<CacheKey>, counts: map<CacheKey, nat>)
    requires NoDuplicates(filled)
    requires forall i :: 0 <= i < |filled| ==> filled[i] in keys && CountOf(counts, filled[i]) <= i + 1
    requires forall key :: key in keys && key !in filled ==> CountOf(counts, key) <= |filled| + 1
    ensures 2 * SumOver(keys, counts) <= |keys| * (|keys| + 1)
  {
    var others := set key | key in keys && key !in filled;
    SumCharged(keys, filled, counts, others);
    SumAtMost(others, counts, |filled| + 1);
    TriangleBound(|keys|, |filled|, SumOver(others, counts));
  }

  lemma SumOfCharges(s: System, keys: set<CacheKey>, start: nat)
    requires Inv(s, keys, start)
    ensures 2 * SumOver(keys, s.history.sourceLoads) <= |keys| * (|keys| + 1)
  {
    forall key | key in keys && key !in s.history.filled
      ensures CountOf(s.history.sourceLoads, key) <= |s.history.filled| + 1
    {
      UnfilledKeysCost(s, keys, start, key);
    }
    ChargedSum(keys, s.history.filled, s.history.sourceLoads);
  }

  lemma {:induction false} SumFollowsSourceCalls(s: System, l: Label, keys: set<CacheKey>)
    requires Enabled(s, l) && forall id :: id in s.flight.loaders ==> s.flight.loaders[id].key in keys
    ensures
      SumOver(keys, Next(s, l).history.sourceLoads) ==
      SumOver(keys, s.history.sourceLoads) + if l.SourceBegin? then 1 else 0
  {
    if l.SourceBegin? {
      SumIncrement(keys, s.flight.loaders[l.id].key, s.history.sourceLoads);
    }
  }

  lemma {:induction false} QuietRun(s: System, labels: seq<Label>, keys: set<CacheKey>, start: nat)
    requires Inv(s, keys, start) && s.history.sourceLoads == map[]
    requires Executable(s, labels) && AlwaysQuiet(s, labels, keys)
    ensures Inv(After(s, labels), keys, start)
    ensures SumOver(keys, After(s, labels).history.sourceLoads) == SourceCalls(labels)
  {
    if labels == [] {
      SumAtMost(keys, map[], 0);
    } else {
      var front, l := labels[..|labels| - 1], labels[|labels| - 1];
      QuietRun(s, front, keys, start);
      InvNext(After(s, front), l, keys, start);
      SumFollowsSourceCalls(After(s, front), l, keys);
    }
  }

  /** The bound: at most N(N+1)/2 source loads for N keys, in every run. */
  lemma SourceLoadBound(
    cache: Cache, now: Time, source: map<CacheKey, ContainerConfig>, labels: seq<Label>, keys: set<CacheKey>
  )
    requires forall key :: key in keys ==> key in source
    requires Executable(Initial(cache, now, source), labels)
    requires AlwaysQuiet(Initial(cache, now, source), labels, keys)
    ensures SourceCalls(labels) <= |keys| * (|keys| + 1) / 2
  {
    var s := Initial(cache, now, source);
    AdvancedWraps(0, cache.version);
    QuietRun(s, labels, keys, cache.version);
    SumOfCharges(After(s, labels), keys, cache.version);
  }

  /** Concurrent misses on one key are coalesced into a single source load. */
  lemma OneKeyIsLoadedOnce(
    cache: Cache, now: Time, source: map<CacheKey, ContainerConfig>, labels: seq<Label>, key: CacheKey
  )
    requires key in source
    requires Executable(Initial(cache, now, source), labels)
    requires AlwaysQuiet(Initial(cache, now, source), labels, {key})
    ensures SourceCalls(labels) <= 1
  {
    SourceLoadBound(cache, now, source, labels, {key});
  }
}
