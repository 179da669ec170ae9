/**
 What sweeping costs and what it bounds. The quantities are counted over runs from an
 empty cache, each by its own recursion over the events.
 */
module CacheSweeps {
  import opened ConfigTypes
  import opened CacheModel
  import opened CacheRuns

  /** Events that insert an entry: Set calls and landing fills. */
  predicate Writes(w: World, e: Event) {
    e.SetEvent? || (e.FillEvent? && FillLands(w.cache, e.token))
  }

  predicate Sweeps(w: World, e: Event) {
    e.SetEvent? && w.cache.nextSweep <= |w.cache.entries|
  }

  function WriteCount(w: World, events: seq<Event>): nat {
    if events == [] then 0
    else
      var front := events[..|events| - 1];
      WriteCount(w, front) + if Writes(Run(w, front), events[|events| - 1]) then 1 else 0
  }

  /** Entries looked at by all sweeps of the run. */
  function VisitCount(w: World, events: seq<Event>): nat {
    if events == [] then 0
    else
      var front, e := events[..|events| - 1], events[|events| - 1];
      VisitCount(w, front) + if e.SetEvent? then SweepVisits(Run(w, front).cache) else 0
  }

  /** Entries the last sweep kept; 0 before the first. */
  function Survivors(w: World, events: seq<Event>): nat {
    if events == [] then 0
    else
      var front, e := events[..|events| - 1], events[|events| - 1];
      var before := Run(w, front);
      if Sweeps(before, e) then |Live(before.cache.entries, before.now)| else Survivors(w, front)
  }

  /** Insertions since the last sweep; the Set that swept is the first of them. */
  function WritesSinceSweep(w: World, events: seq<Event>): nat {
    if events == [] then 0
    else
      var front, e := events[..|events| - 1], events[|events| - 1];
      var before := Run(w, front);
      if Sweeps(before, e) then 1
      else WritesSinceSweep(w, front) + if Writes(before, e) then 1 else 0
  }

  function FillsSinceSet(w: World, events: seq<Event>): nat {
    if events == [] then 0
    else
      var front, e := events[..|events| - 1], events[|events| - 1];
      if e.SetEvent? then 0
      else FillsSinceSet(w, front) + if Writes(Run(w, front), e) then 1 else 0
  }

  /** No event adds more than the entry it writes; a Set counts from the swept map. */
  lemma EntriesGrowByWrites(w: World, e: Event)
    ensures
      var before := if Sweeps(w, e) then |Live(w.cache.entries, w.now)| else |w.cache.entries|;
      |Next(w, e).cache.entries| <= before + if Writes(w, e) then 1 else 0
  {
    match e
    case Tick(_) =>
    case SetEvent(key, config, sampledAt) =>
      MapSizes(Sweep(w.cache, w.now).entries, key, Entry(config, sampledAt + w.cache.ttl));
    case DeleteEvent(key) => MapSizes(w.cache.entries, key, Entry(ContainerConfig("", TenantScoped, map[]), 0));
    case FillEvent(key, config, sampledAt, _) =>
      MapSizes(w.cache.entries, key, Entry(config, sampledAt + w.cache.ttl));
    case RecheckEvent(key) => MapSizes(w.cache.entries, key, Entry(ContainerConfig("", TenantScoped, map[]), 0));
  }

  /** The threshold is always twice what the last sweep left, and never below the minimum. */
  lemma {:induction false} ThresholdFollowsSurvivors(w: World, events: seq<Event>)
    requires w.cache.nextSweep == CACHE_SWEEP_MIN_INTERVAL
    ensures Run(w, events).cache.nextSweep == if Survivors(w, events) <= 8 then 16 else 2 * Survivors(w, events)
  {
    if events != [] {
      ThresholdFollowsSurvivors(w, events[..|events| - 1]);
    }
  }

  /** Every visited entry is paid for by two writes since the previous sweep. */
  lemma {:induction false} SweepPotential(w: World, events: seq<Event>)
    requires w.cache.entries == map[] && w.cache.nextSweep == CACHE_SWEEP_MIN_INTERVAL
    ensures |Run(w, events).cache.entries| <= Survivors(w, events) + WritesSinceSweep(w, events)
    ensures VisitCount(w, events) + 2 * WritesSinceSweep(w, events) <= 2 * WriteCount(w, events)
  {
    if events != [] {
      var front, e := events[..|events| - 1], events[|events| - 1];
      SweepPotential(w, front);
      ThresholdFollowsSurvivors(w, front);
      EntriesGrowByWrites(Run(w, front), e);
    }
  }

  /** Sweeping is amortized: at most two visits per Set or landing fill, over any run. */
  lemma AmortizedSweeping(ttl: Time, now: Time, events: seq<Event>)
    ensures
      var w := World(EmptyCache(ttl), now);
      VisitCount(w, events) <= 2 * WriteCount(w, events)
  {
    SweepPotential(World(EmptyCache(ttl), now), events);
  }

  /** Entries never exceed the threshold by more than the fills that landed since the last Set. */
  lemma {:induction false} SizeBound(ttl: Time, now: Time, events: seq<Event>)
    ensures
      var w := World(EmptyCache(ttl), now);
      |Run(w, events).cache.entries| <= Run(w, events).cache.nextSweep + FillsSinceSet(w, events)
  {
    if events != [] {
      SizeBound(ttl, now, events[..|events| - 1]);
      EntriesGrowByWrites(Run(World(EmptyCache(ttl), now), events[..|events| - 1]), events[|events| - 1]);
    }
  }

  // ----- Fills never sweep, so abandoned keys can pile up without a Set -----

  predicate NoSet(events: seq<Event>) {
    forall i :: 0 <= i < |events| ==> !events[i].SetEvent?
  }

  /** Without a Set nothing is swept and every entry beyond the first ones is a fill's. */
  lemma {:induction false} OnlyFillsAdd(w: World, events: seq<Event>)
    requires NoSet(events)
    ensures VisitCount(w, events) == 0
    ensures |Run(w, events).cache.entries| <= |w.cache.entries| + WriteCount(w, events)
  {
    if events != [] {
      var front, e := events[..|events| - 1], events[|events| - 1];
      assert !e.SetEvent?;
      OnlyFillsAdd(w, front);
      EntriesGrowByWrites(Run(w, front), e);
    }
  }

  /** Any number of distinct keys: tallies as tenant IDs. */
  function NumberedKey(i: nat): CacheKey {
    CacheKey(seq(i, _ => '|'), "")
  }

  ghost predicate Unnumbered(keys: set<CacheKey>, first: nat) {
    forall i: nat :: first <= i ==> NumberedKey(i) !in keys
  }

  lemma NumbersDiffer(i: nat, j: nat)
    ensures NumberedKey(i) == NumberedKey(j) <==> i == j
  {
    assert |NumberedKey(i).tenantID| == i && |NumberedKey(j).tenantID| == j;
  }

  /** From some number on, no numbered key is among finitely many. */
  lemma {:induction false} NumbersRunOut(keys: set<CacheKey>) returns (first: nat)
    ensures Unnumbered(keys, first)
  {
    if keys == {} {
      return 0;
    }
    var key :| key in keys;
    first := NumbersRunOut(keys - {key});
    if j: nat :| NumberedKey(j) == key {
      forall i: nat | first + j + 1 <= i
        ensures NumberedKey(i) !in keys
      {
        NumbersDiffer(i, j);
      }
      first := first + j + 1;
    }
  }

  /** A fill of the n-th numbered key with the current token. */
  function AbandonedFill(w: World, n: nat, config: ContainerConfig): Event {
    FillEvent(NumberedKey(n), config, w.now, Token(w.cache.version))
  }

  /** n fills for the numbered keys from first on, each holding the token that is current then. */
  function AbandonedFills(w: World, first: nat, n: nat, config: ContainerConfig): seq<Event> {
    if n == 0 then []
    else
      var front := AbandonedFills(w, first, n - 1, config);
      front + [AbandonedFill(Run(w, front), first + n - 1, config)]
  }

  lemma FillAddsKey(w: World, e: Event)
    requires e.FillEvent? && FillLands(w.cache, e.token) && e.key !in w.cache.entries
    ensures Next(w, e).cache.entries.Keys == w.cache.entries.Keys + {e.key}
    ensures |Next(w, e).cache.entries| == |w.cache.entries| + 1
  {
    assert Next(w, e).cache.entries.Keys == w.cache.entries.Keys + {e.key};
  }

  lemma OneMoreEvent(w: World, events: seq<Event>, e: Event)
    ensures Run(w, events + [e]) == Next(Run(w, events), e)
    ensures WriteCount(w, events + [e]) == WriteCount(w, events) + if Writes(Run(w, events), e) then 1 else 0
  {
    assert (events + [e])[..|events|] == events;
  }

  /** n more entries are held, under the numbered keys before first + n. */
  ghost predicate PiledUp(w: World, t: World, first: nat, n: nat) {
    && t.now == w.now && |t.cache.entries| == |w.cache.entries| + n
    && Unnumbered(t.cache.entries.Keys, first + n)
  }

  lemma {:induction false} FillsPileUp(w: World, first: nat, n: nat, config: ContainerConfig)
    requires Unnumbered(w.cache.entries.Keys, first)
    ensures PiledUp(w, Run(w, AbandonedFills(w, first, n, config)), first, n)
  {
    if n > 0 {
      var front := AbandonedFills(w, first, n - 1, config);
      FillsPileUp(w, first, n - 1, config);
      OneMoreFill(w, Run(w, front), first, n - 1, config);
      OneMoreEvent(w, front, AbandonedFill(Run(w, front), first + n - 1, config));
    }
  }

  lemma {:induction false} FillsAreNoSets(w: World, first: nat, n: nat, config: ContainerConfig)
    ensures NoSet(AbandonedFills(w, first, n, config))
  {
    if n > 0 {
      FillsAreNoSets(w, first, n - 1, config);
    }
  }

  lemma CurrentFillsLand(t: World, n: nat, config: ContainerConfig)
    ensures Writes(t, AbandonedFill(t, n, config))
  {
  }

  lemma {:induction false} FillsAllLand(w: World, first: nat, n: nat, config: ContainerConfig)
    ensures WriteCount(w, AbandonedFills(w, first, n, config)) == n
  {
    if n > 0 {
      var front := AbandonedFills(w, first, n - 1, config);
      FillsAllLand(w, first, n - 1, config);
      CurrentFillsLand(Run(w, front), first + n - 1, config);
      OneMoreEvent(w, front, AbandonedFill(Run(w, front), first + n - 1, config));
    }
  }

  lemma OneMoreFill(w: World, t: World, first: nat, n: nat, config: ContainerConfig)
    requires PiledUp(w, t, first, n)
    ensures PiledUp(w, Next(t, AbandonedFill(t, first + n, config)), first, n + 1)
  {
    var e := AbandonedFill(t, first + n, config);
    FillAddsKey(t, e);
    forall j: nat | first + n + 1 <= j
      ensures NumberedKey(j) !in Next(t, e).cache.entries.Keys
    {
      NumbersDiffer(first + n, j);
    }
  }

  /** Everything held expires if one waits long enough. */
  lemma {:induction false} EverythingExpires(entries: map<CacheKey, Entry>, now: Time) returns (elapsed: nat)
    ensures forall key :: key in entries ==> Expired(entries[key], now + elapsed)
    decreases |entries|
  {
    if entries == map[] {
      return 0;
    }
    var key :| key in entries;
    MapSizes(entries, key, entries[key]);
    assert (entries - {key}).Keys == entries.Keys - {key};
    elapsed := EverythingExpires(entries - {key}, now);
    assert forall other :: other in entries && other != key ==> other in entries - {key};
    if now + elapsed < entries[key].expiresAt {
      elapsed := entries[key].expiresAt - now;
    }
  }

  /**
   Without a Set and with at most so many landing fills, more than bound entries are left,
   all expired and never swept.
   */
  predicate Accumulates(w: World, events: seq<Event>, fills: nat, bound: nat) {
    && NoSet(events) && WriteCount(w, events) <= fills && VisitCount(w, events) == 0
    && bound < |Run(w, events).cache.entries|
    && Live(Run(w, events).cache.entries, Run(w, events).now) == map[]
  }

  ghost predicate CanAccumulate(w: World, fills: nat, bound: nat) {
    exists events :: Accumulates(w, events, fills, bound)
  }

  lemma WaitingAccumulates(w: World, events: seq<Event>, fills: nat, bound: nat)
    requires NoSet(events) && WriteCount(w, events) <= fills && bound < |Run(w, events).cache.entries|
    ensures CanAccumulate(w, fills, bound)
  {
    var filled := Run(w, events);
    var elapsed := EverythingExpires(filled.cache.entries, filled.now);
    var waiting := events + [Tick(elapsed)];
    OnlyFillsAdd(w, events);
    assert waiting[..|waiting| - 1] == events;
    assert Accumulates(w, waiting, fills, bound);
  }

  /**
   How much can pile up. From any cache, runs without a Set and with at most k landing fills
   can leave more than bound entries behind, all of them expired, if and only if bound is
   less than the entries at the start and k together.
   */
  lemma {:induction false} AccumulationIsExact(w: World, k: nat, bound: nat)
    ensures CanAccumulate(w, k, bound) <==> bound < |w.cache.entries| + k
  {
    if events :| Accumulates(w, events, k, bound) {
      OnlyFillsAdd(w, events);
    }
    if bound < |w.cache.entries| + k {
      var first := NumbersRunOut(w.cache.entries.Keys);
      var config := ContainerConfig("", TenantScoped, map[]);
      FillsPileUp(w, first, k, config);
      FillsAllLand(w, first, k, config);
      FillsAreNoSets(w, first, k, config);
      WaitingAccumulates(w, AbandonedFills(w, first, k, config), k, bound);
    }
  }

  /** In particular, for every n a new cache that is only filled can end up with more than n entries, all expired. */
  lemma {:induction false} ExpiredFillsAccumulate(n: nat, ttl: Time, now: Time)
    ensures CanAccumulate(World(EmptyCache(ttl), now), n + 1, n)
    ensures !CanAccumulate(World(EmptyCache(ttl), now), n, n)
  {
    AccumulationIsExact(World(EmptyCache(ttl), now), n + 1, n);
    AccumulationIsExact(World(EmptyCache(ttl), now), n, n);
  }
}
