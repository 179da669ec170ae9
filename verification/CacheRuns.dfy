/**
 Every interleaving of the cache's critical sections with the clock. A run is a
 sequence of events; the independent machine TtlMap, which never expires, rechecks or
 sweeps anything, says what the cache means.
 */
module CacheRuns {
  import opened Wrappers
  import opened ConfigTypes
  import opened Strconv
  import opened CacheModel

  datatype Event =
    | Tick(elapsed: nat)
    | SetEvent(key: CacheKey, config: ContainerConfig, sampledAt: Time)
    | DeleteEvent(key: CacheKey)
    | FillEvent(key: CacheKey, config: ContainerConfig, sampledAt: Time, token: string)
    | RecheckEvent(key: CacheKey)

  datatype World = World(cache: Cache, now: Time)

  function Next(w: World, e: Event): World {
    match e
    case Tick(elapsed) => w.(now := w.now + elapsed)
    case SetEvent(key, config, sampledAt) => w.(cache := SetLocked(w.cache, w.now, key, config, sampledAt))
    case DeleteEvent(key) => w.(cache := DeleteLocked(w.cache, key))
    case FillEvent(key, config, sampledAt, token) => w.(cache := FillLocked(w.cache, key, config, sampledAt, token))
    case RecheckEvent(key) => w.(cache := RecheckLocked(w.cache, w.now, key))
  }

  function Run(w: World, events: seq<Event>): World {
    if events == [] then w else Next(Run(w, events[..|events| - 1]), events[|events| - 1])
  }

  /** Set, Delete and landing fills; the only events that move the version. */
  predicate Mutates(w: World, e: Event) {
    e.SetEvent? || e.DeleteEvent? || (e.FillEvent? && FillLands(w.cache, e.token))
  }

  function Mutations(w: World, events: seq<Event>): nat {
    if events == [] then 0
    else
      var front := events[..|events| - 1];
      Mutations(w, front) + if Mutates(Run(w, front), events[|events| - 1]) then 1 else 0
  }

  lemma {:induction false} RunSplit(w: World, events: seq<Event>, i: nat)
    requires i <= |events|
    ensures Run(w, events) == Run(Run(w, events[..i]), events[i..])
    ensures Mutations(w, events) == Mutations(w, events[..i]) + Mutations(Run(w, events[..i]), events[i..])
  {
    if i == |events| {
      assert events[..i] == events;
    } else {
      var front := events[..|events| - 1];
      RunSplit(w, front, i);
      assert front[..i] == events[..i];
      assert events[i..][..|events[i..]| - 1] == front[i..];
    }
  }

  lemma {:induction false} MutationsAtMostEvents(w: World, events: seq<Event>)
    ensures Mutations(w, events) <= |events|
  {
    if events != [] {
      MutationsAtMostEvents(w, events[..|events| - 1]);
    }
  }

  // ----- Expiry on read, rechecks and sweeps change nothing a reader can see -----

  datatype TtlMap = TtlMap(entries: map<CacheKey, Entry>, version: Version, ttl: Time, now: Time)

  function IdealNext(m: TtlMap, e: Event): TtlMap {
    match e
    case Tick(elapsed) => m.(now := m.now + elapsed)
    case SetEvent(key, config, sampledAt) =>
      m.(entries := m.entries[key := Entry(config, sampledAt + m.ttl)], version := Bump(m.version))
    case DeleteEvent(key) => m.(entries := m.entries - {key}, version := Bump(m.version))
    case FillEvent(key, config, sampledAt, token) =>
      if Token(m.version) == token then
        m.(entries := m.entries[key := Entry(config, sampledAt + m.ttl)], version := Bump(m.version))
      else m
    case RecheckEvent(_) => m
  }

  function IdealRun(m: TtlMap, events: seq<Event>): TtlMap {
    if events == [] then m else IdealNext(IdealRun(m, events[..|events| - 1]), events[|events| - 1])
  }

  /** An atomic lookup in the plain TTL map. */
  function IdealLookup(m: TtlMap, key: CacheKey): Lookup {
    if key in m.entries && m.now < m.entries[key].expiresAt then Lookup(Some(m.entries[key].config), Token(m.version))
    else Lookup(None, Token(m.version))
  }

  predicate SubMap(a: map<CacheKey, Entry>, b: map<CacheKey, Entry>) {
    forall key :: key in a ==> key in b && b[key] == a[key]
  }

  predicate Refines(w: World, m: TtlMap) {
    && w.now == m.now
    && w.cache.ttl == m.ttl
    && w.cache.version == m.version
    && SubMap(w.cache.entries, m.entries)
    && Live(w.cache.entries, w.now) == Live(m.entries, w.now)
  }

  lemma EmptyCacheRefines(ttl: Time, now: Time)
    ensures Refines(World(EmptyCache(ttl), now), TtlMap(map[], 0, ttl, now))
  {
  }

  /** Neither a sweep nor a recheck removes an entry that is unexpired at that step. */
  lemma CleaningKeepsLiveEntries(c: Cache, now: Time, key: CacheKey)
    ensures SubMap(Sweep(c, now).entries, c.entries)
    ensures Live(Sweep(c, now).entries, now) == Live(c.entries, now)
    ensures SubMap(RecheckLocked(c, now, key).entries, c.entries)
    ensures Live(RecheckLocked(c, now, key).entries, now) == Live(c.entries, now)
  {
    assert Live(Live(c.entries, now), now) == Live(c.entries, now);
  }

  lemma RefinesSet(w: World, m: TtlMap, key: CacheKey, config: ContainerConfig, sampledAt: Time)
    requires Refines(w, m)
    ensures Refines(Next(w, SetEvent(key, config, sampledAt)), IdealNext(m, SetEvent(key, config, sampledAt)))
  {
    CleaningKeepsLiveEntries(w.cache, w.now, key);
    LiveUpdate(Sweep(w.cache, w.now).entries, m.entries, w.now, key, Entry(config, sampledAt + m.ttl));
  }

  lemma RefinesFill(w: World, m: TtlMap, key: CacheKey, config: ContainerConfig, sampledAt: Time, token: string)
    requires Refines(w, m)
    ensures Refines(
      Next(w, FillEvent(key, config, sampledAt, token)), IdealNext(m, FillEvent(key, config, sampledAt, token)))
  {
    LiveUpdate(w.cache.entries, m.entries, w.now, key, Entry(config, sampledAt + m.ttl));
  }

  lemma RefinesNext(w: World, m: TtlMap, e: Event)
    requires Refines(w, m)
    ensures Refines(Next(w, e), IdealNext(m, e))
  {
    match e
    case Tick(elapsed) => RefinesTick(w, m, elapsed);
    case SetEvent(key, config, sampledAt) => RefinesSet(w, m, key, config, sampledAt);
    case DeleteEvent(key) => LiveRemove(w.cache.entries, m.entries, w.now, key);
    case FillEvent(key, config, sampledAt, token) => RefinesFill(w, m, key, config, sampledAt, token);
    case RecheckEvent(key) => CleaningKeepsLiveEntries(w.cache, w.now, key);
  }

  lemma RefinesTick(w: World, m: TtlMap, elapsed: nat)
    requires Refines(w, m)
    ensures Refines(Next(w, Tick(elapsed)), IdealNext(m, Tick(elapsed)))
  {
    forall key | key in m.entries && !Expired(m.entries[key], w.now + elapsed)
      ensures key in w.cache.entries
    {
      assert key in Live(m.entries, w.now);
    }
    assert Live(w.cache.entries, w.now + elapsed) == Live(m.entries, w.now + elapsed);
  }

  lemma LiveUpdate(a: map<CacheKey, Entry>, b: map<CacheKey, Entry>, now: Time, key: CacheKey, entry: Entry)
    requires SubMap(a, b) && Live(a, now) == Live(b, now)
    ensures SubMap(a[key := entry], b[key := entry])
    ensures Live(a[key := entry], now) == Live(b[key := entry], now)
  {
    LivePointwise(a, b, now);
  }

  lemma LiveRemove(a: map<CacheKey, Entry>, b: map<CacheKey, Entry>, now: Time, key: CacheKey)
    requires SubMap(a, b) && Live(a, now) == Live(b, now)
    ensures SubMap(a - {key}, b - {key})
    ensures Live(a - {key}, now) == Live(b - {key}, now)
  {
    LivePointwise(a, b, now);
  }

  lemma LivePointwise(a: map<CacheKey, Entry>, b: map<CacheKey, Entry>, now: Time)
    requires Live(a, now) == Live(b, now)
    ensures forall key :: (key in a && !Expired(a[key], now)) <==> (key in b && !Expired(b[key], now))
    ensures forall key :: key in a && !Expired(a[key], now) ==> a[key] == b[key]
  {
    forall key
      ensures (key in a && !Expired(a[key], now)) <==> (key in b && !Expired(b[key], now))
      ensures key in a && !Expired(a[key], now) ==> a[key] == b[key]
    {
      assert key in Live(a, now) <==> key in Live(b, now);
      assert key in Live(a, now) ==> Live(a, now)[key] == Live(b, now)[key];
    }
  }

  /** The cache refines the plain TTL map over every run. */
  lemma {:induction false} LazyExpiryRefinement(w: World, m: TtlMap, events: seq<Event>)
    requires Refines(w, m)
    ensures Refines(Run(w, events), IdealRun(m, events))
  {
    if events != [] {
      var front := events[..|events| - 1];
      LazyExpiryRefinement(w, m, front);
      RefinesNext(Run(w, front), IdealRun(m, front), events[|events| - 1]);
    }
  }

  /** From a new cache every run is one of the plain TTL map from empty. */
  lemma LazyExpiryFromEmpty(ttl: Time, now: Time, events: seq<Event>)
    ensures Refines(Run(World(EmptyCache(ttl), now), events), IdealRun(TtlMap(map[], 0, ttl, now), events))
  {
    EmptyCacheRefines(ttl, now);
    LazyExpiryRefinement(World(EmptyCache(ttl), now), TtlMap(map[], 0, ttl, now), events);
  }

  lemma {:induction false} ClockAdvances(w: World, events: seq<Event>)
    ensures w.now <= Run(w, events).now
  {
    if events != [] {
      ClockAdvances(w, events[..|events| - 1]);
    }
  }

  /**
   A reader captures the entry and the token after i events and looks at the clock
   after j events. Hits and plain misses are what an atomic lookup at the read lock
   answers; so is exactly every answer except a miss on an entry that expired between
   the two moments.
   */
  lemma ReadLinearizesAtReadLock(w: World, m: TtlMap, events: seq<Event>, i: nat, j: nat, key: CacheKey)
    requires Refines(w, m)
    requires i <= j <= |events|
    ensures
      var read, checked := Run(w, events[..i]), Run(w, events[..j]);
      var captured := Peek(read.cache, key);
      var answer := Answer(captured, Token(read.cache.version), checked.now);
      answer == IdealLookup(IdealRun(m, events[..i]), key)
      <==>
      (answer.config.Some? || captured.None? || Expired(captured.value, read.now))
  {
    LazyExpiryRefinement(w, m, events[..i]);
    var read, checked := Run(w, events[..i]), Run(w, events[..j]);
    LivePointwise(read.cache.entries, IdealRun(m, events[..i]).entries, read.now);
    assert events[..j][..i] == events[..i];
    RunSplit(w, events[..j], i);
    ClockAdvances(read, events[..j][i..]);
  }

  // ----- The version counts mutations, so a token decides a fill -----

  lemma {:induction false} VersionCountsMutations(w: World, events: seq<Event>)
    ensures Run(w, events).cache.version == Advanced(w.cache.version, Mutations(w, events))
  {
    if events != [] {
      VersionCountsMutations(w, events[..|events| - 1]);
    }
  }

  /** The uint64 counter is back where it was after n steps. */
  predicate WholeTurns(n: nat) {
    n % TWO_TO_64 == 0
  }

  lemma SameResidue(v: Version, n: nat)
    ensures (v + n) % TWO_TO_64 == v <==> n % TWO_TO_64 == 0
  {
    var r := n % TWO_TO_64;
    assert v + n == n / TWO_TO_64 * TWO_TO_64 + (v + r);
    assert (v + n) % TWO_TO_64 == (v + r) % TWO_TO_64;
  }

  lemma CounterComesBack(version: Version, n: nat)
    ensures Token(Advanced(version, n)) == Token(version) <==> WholeTurns(n)
    ensures 0 < n < TWO_TO_64 ==> Token(Advanced(version, n)) != Token(version)
  {
    TokensIdentifyVersions(Advanced(version, n), version);
    AdvancedWraps(version, n);
    SameResidue(version, n);
  }

  /** A fill holding the token of an earlier read lands exactly when the mutations since are 0 modulo 2^64. */
  lemma {:induction false} ExactFillCondition(w: World, events: seq<Event>)
    ensures FillLands(Run(w, events).cache, Token(w.cache.version)) <==> WholeTurns(Mutations(w, events))
    ensures 0 < Mutations(w, events) < TWO_TO_64 ==> !FillLands(Run(w, events).cache, Token(w.cache.version))
  {
    VersionCountsMutations(w, events);
    CounterComesBack(w.cache.version, Mutations(w, events));
  }

  /** Within the counter's range a fill never overwrites or undoes a later Set or Delete. */
  lemma StaleFillChangesNothing(w: World, events: seq<Event>, key: CacheKey, config: ContainerConfig, sampledAt: Time)
    requires 0 < Mutations(w, events) < TWO_TO_64
    ensures
      var c := Run(w, events).cache;
      FillLocked(c, key, config, sampledAt, Token(w.cache.version)) == c
  {
    ExactFillCondition(w, events);
  }

  /** The empty token of a failed versioned read fills nothing. */
  lemma EmptyTokenChangesNothing(c: Cache, key: CacheKey, config: ContainerConfig, sampledAt: Time)
    ensures FillLocked(c, key, config, sampledAt, "") == c
  {
    TokensIdentifyVersions(c.version, c.version);
  }

  // ----- A miss on an entry that expired meanwhile -----

  /** The last moment in [i, j] before the first mutation after i. */
  function QuietUntil(w: World, events: seq<Event>, i: nat, j: nat): (f: nat)
    requires i <= j <= |events|
    ensures i <= f <= j
    decreases j - i
  {
    if i == j || Mutates(Run(w, events[..i]), events[i]) then i else QuietUntil(w, events, i + 1, j)
  }

  lemma {:induction false} QuietUntilProperties(w: World, events: seq<Event>, i: nat, j: nat)
    requires i <= j <= |events|
    ensures
      var f := QuietUntil(w, events, i, j);
      && Mutations(w, events[..f]) == Mutations(w, events[..i])
      && (f < j ==> Mutations(w, events[..f + 1]) == Mutations(w, events[..i]) + 1)
    decreases j - i
  {
    if i < j {
      assert events[..i + 1][..i] == events[..i];
      if !Mutates(Run(w, events[..i]), events[i]) {
        QuietUntilProperties(w, events, i + 1, j);
      }
    }
  }

  lemma {:induction false} MutationsGrow(w: World, events: seq<Event>, i: nat, j: nat)
    requires i <= j <= |events|
    ensures Mutations(w, events[..i]) <= Mutations(w, events[..j])
    decreases j - i
  {
    if i < j {
      assert events[..j][..j - 1] == events[..j - 1];
      MutationsGrow(w, events, i, j - 1);
    }
  }

  lemma {:induction false} ClockGrows(w: World, events: seq<Event>, i: nat, j: nat)
    requires i <= j <= |events|
    ensures Run(w, events[..i]).now <= Run(w, events[..j]).now
  {
    assert events[..j][..i] == events[..i];
    RunSplit(w, events[..j], i);
    ClockAdvances(Run(w, events[..i]), events[..j][i..]);
  }

  /** Without a mutation the plain TTL map keeps its entries and its version. */
  lemma {:induction false} QuietIdeal(w: World, m: TtlMap, events: seq<Event>, i: nat, f: nat)
    requires Refines(w, m)
    requires i <= f <= |events|
    requires Mutations(w, events[..f]) == Mutations(w, events[..i])
    ensures IdealRun(m, events[..f]).entries == IdealRun(m, events[..i]).entries
    ensures IdealRun(m, events[..f]).version == IdealRun(m, events[..i]).version
    decreases f - i
  {
    if i < f {
      assert events[..f][..f - 1] == events[..f - 1];
      MutationsGrow(w, events, i, f - 1);
      QuietIdeal(w, m, events, i, f - 1);
      LazyExpiryRefinement(w, m, events[..f - 1]);
    }
  }

  /** Some moment between the two at which an atomic lookup gives this answer. */
  ghost predicate LinearizesWithin(m: TtlMap, events: seq<Event>, i: nat, j: nat, key: CacheKey, answer: Lookup)
    requires i <= j <= |events|
  {
    exists t :: i <= t <= j && IdealLookup(IdealRun(m, events[..t]), key) == answer
  }

  /**
   A miss on an entry captured alive is an atomic answer for some moment of the call
   if and only if the entry expired before the first mutation that followed the read.
   */
  lemma {:induction false} ExpiredMissLinearizesExactly(
    w: World, m: TtlMap, events: seq<Event>, i: nat, j: nat, key: CacheKey
  )
    requires Refines(w, m)
    requires i <= j <= |events|
    requires key in Live(Run(w, events[..i]).cache.entries, Run(w, events[..i]).now)
    requires Expired(Run(w, events[..i]).cache.entries[key], Run(w, events[..j]).now)
    requires Mutations(w, events[..j]) - Mutations(w, events[..i]) < TWO_TO_64
    ensures
      var read := Run(w, events[..i]);
      LinearizesWithin(m, events, i, j, key, Lookup(None, Token(read.cache.version)))
      <==>
      Expired(read.cache.entries[key], Run(w, events[..QuietUntil(w, events, i, j)]).now)
  {
    var read, f := Run(w, events[..i]), QuietUntil(w, events, i, j);
    var miss := Lookup(None, Token(read.cache.version));
    if Expired(read.cache.entries[key], Run(w, events[..f]).now) {
      QuietUntilProperties(w, events, i, j);
      IdealKeepsEntryWhileQuiet(w, m, events, i, f, key);
      assert IdealLookup(IdealRun(m, events[..f]), key) == miss;
    }
    if t :| i <= t <= j && IdealLookup(IdealRun(m, events[..t]), key) == miss {
      MissMeansExpiredBeforeMutation(w, m, events, i, j, key, t);
    }
  }

  lemma MissMeansExpiredBeforeMutation(
    w: World, m: TtlMap, events: seq<Event>, i: nat, j: nat, key: CacheKey, t: nat
  )
    requires Refines(w, m)
    requires i <= t <= j <= |events|
    requires key in Live(Run(w, events[..i]).cache.entries, Run(w, events[..i]).now)
    requires Mutations(w, events[..j]) - Mutations(w, events[..i]) < TWO_TO_64
    requires IdealLookup(IdealRun(m, events[..t]), key) == Lookup(None, Token(Run(w, events[..i]).cache.version))
    ensures Expired(Run(w, events[..i]).cache.entries[key], Run(w, events[..QuietUntil(w, events, i, j)]).now)
  {
    var f := QuietUntil(w, events, i, j);
    QuietUntilProperties(w, events, i, j);
    LazyExpiryRefinement(w, m, events[..t]);
    MutationsGrow(w, events, i, t);
    if f < t {
      MutationsGrow(w, events, f + 1, t);
      MutationsGrow(w, events, t, j);
      VersionChangedBetween(w, events, i, t);
      assert false;
    } else {
      MutationsGrow(w, events, t, f);
      IdealKeepsEntryWhileQuiet(w, m, events, i, t, key);
      ClockGrows(w, events, t, f);
    }
  }

  lemma IdealKeepsEntryWhileQuiet(w: World, m: TtlMap, events: seq<Event>, i: nat, f: nat, key: CacheKey)
    requires Refines(w, m)
    requires i <= f <= |events|
    requires key in Live(Run(w, events[..i]).cache.entries, Run(w, events[..i]).now)
    requires Mutations(w, events[..f]) == Mutations(w, events[..i])
    ensures
      var read := Run(w, events[..i]).cache;
      IdealLookup(IdealRun(m, events[..f]), key) ==
        Answer(Some(read.entries[key]), Token(read.version), Run(w, events[..f]).now)
  {
    LazyExpiryRefinement(w, m, events[..i]);
    LazyExpiryRefinement(w, m, events[..f]);
    QuietIdeal(w, m, events, i, f);
  }

  lemma VersionChangedBetween(w: World, events: seq<Event>, i: nat, t: nat)
    requires i <= t <= |events|
    requires 0 < Mutations(w, events[..t]) - Mutations(w, events[..i]) < TWO_TO_64
    ensures Token(Run(w, events[..i]).cache.version) != Token(Run(w, events[..t]).cache.version)
  {
    assert events[..t][..i] == events[..i];
    RunSplit(w, events[..t], i);
    ExactFillCondition(Run(w, events[..i]), events[..t][i..]);
  }

  /** One run where no moment explains the miss: the entry is replaced while it is still alive. */
  lemma ExpiredMissMayNotLinearize(key: CacheKey, first: ContainerConfig, second: ContainerConfig)
    ensures
      var w, m := World(EmptyCache(10), 0), TtlMap(map[], 0, 10, 0);
      var events := [SetEvent(key, first, 0), Tick(9), SetEvent(key, second, 9), Tick(2)];
      var read, checked := Run(w, events[..1]), Run(w, events[..4]);
      && Answer(Peek(read.cache, key), Token(read.cache.version), checked.now) == Lookup(None, Token(1))
      && !LinearizesWithin(m, events, 1, 4, key, Lookup(None, Token(1)))
  {
    var w, m := World(EmptyCache(10), 0), TtlMap(map[], 0, 10, 0);
    var events := [SetEvent(key, first, 0), Tick(9), SetEvent(key, second, 9), Tick(2)];
    assert events[..0] == [];
    assert events[..1][..0] == [] && events[..2][..1] == events[..1];
    assert events[..3][..2] == events[..2] && events[..4][..3] == events[..3];
    var read := Run(w, events[..1]);
    assert Run(w, events[..1]) == Next(w, events[0]);
    assert read.cache.entries == map[key := Entry(first, 10)] && read.cache.version == 1;
    MutationsAtMostEvents(w, events[..4]);
    assert Run(w, events[..2]).now == 9 && Run(w, events[..3]).now == 9 && Run(w, events[..4]).now == 11;
    assert QuietUntil(w, events, 1, 4) == 2;
    ExpiredMissLinearizesExactly(w, m, events, 1, 4, key);
  }
}
