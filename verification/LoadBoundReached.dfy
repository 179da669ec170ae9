/**
 The bound on source loads is the best possible: all keys are loaded at once, one fill
 lands and makes the others stale, and the rejected keys start over.
 */
module LoadBoundReached {
  import opened ConfigTypes
  import opened CacheModel
  import opened LoaderProtocol
  import opened Schedules
  import opened LoadWindows
  import opened LoadBound
  import opened Wrappers

  /** A quiet step that cannot meet an expired entry, because it looks at no clock. */
  predicate Plain(l: Label, keys: set<CacheKey>) {
    && !ActsOutsideCalls(l) && !l.VersionedGetFails? && !l.SourceFails? && !l.FillCancelled?
    && !l.FirstClock? && !l.FirstClean? && !l.VersionedClock? && !l.VersionedClean?
    && (l.Arrive? ==> l.key in keys)
  }

  predicate PlainAt(labels: seq<Label>, i: nat, keys: set<CacheKey>) {
    i < |labels| && Plain(labels[i], keys)
  }

  predicate AllPlain(labels: seq<Label>, keys: set<CacheKey>) {
    forall i {:trigger PlainAt(labels, i, keys)} :: 0 <= i < |labels| ==> PlainAt(labels, i, keys)
  }

  lemma {:induction false} PlainIsQuiet(s: System, labels: seq<Label>, keys: set<CacheKey>)
    requires Executable(s, labels) && AllPlain(labels, keys)
    ensures AlwaysQuiet(s, labels, keys)
  {
    if labels != [] {
      var front := labels[..|labels| - 1];
      assert PlainAt(labels, |labels| - 1, keys);
      forall i | 0 <= i < |front|
        ensures PlainAt(front, i, keys)
      {
        assert PlainAt(labels, i, keys);
      }
      PlainIsQuiet(s, front, keys);
    }
  }

  lemma {:induction false} SourceCallsAdd(a: seq<Label>, b: seq<Label>)
    ensures SourceCalls(a + b) == SourceCalls(a) + SourceCalls(b)
  {
    if b == [] {
      assert a + b == a;
    } else {
      SourceCallsAdd(a, b[..|b| - 1]);
      assert (a + b)[..|a + b| - 1] == a + b[..|b| - 1];
    }
  }

  predicate Leads(s: System, states: seq<System>, labels: seq<Label>, t: System, keys: set<CacheKey>, calls: nat) {
    && Path(states, labels) && states[0] == s && states[|labels|] == t
    && AllPlain(labels, keys) && SourceCalls(labels) == calls
  }

  /** A plain run leads from one state to the other and calls the source so many times. */
  ghost predicate Reaches(s: System, t: System, keys: set<CacheKey>, calls: nat) {
    exists states, labels :: Leads(s, states, labels, t, keys, calls)
  }

  lemma Stay(s: System, keys: set<CacheKey>)
    ensures Reaches(s, s, keys, 0)
  {
    assert Leads(s, [s], [], s, keys, 0);
  }

  lemma {:induction false} Chain(s: System, t: System, u: System, keys: set<CacheKey>, m: nat, n: nat)
    requires Reaches(s, t, keys, m) && Reaches(t, u, keys, n)
    ensures Reaches(s, u, keys, m + n)
  {
    var p, a :| Leads(s, p, a, t, keys, m);
    var q, b :| Leads(t, q, b, u, keys, n);
    PathsJoin(p, a, q, b);
    PlainJoins(a, b, keys);
    SourceCallsAdd(a, b);
    assert Leads(s, p + q[1..], a + b, u, keys, m + n);
  }

  lemma PlainJoins(a: seq<Label>, b: seq<Label>, keys: set<CacheKey>)
    requires AllPlain(a, keys) && AllPlain(b, keys)
    ensures AllPlain(a + b, keys)
  {
    forall i | 0 <= i < |a + b|
      ensures PlainAt(a + b, i, keys)
    {
      assert if i < |a| then PlainAt(a, i, keys) else PlainAt(b, i - |a|, keys);
    }
  }

  lemma {:induction false} NoCalls(labels: seq<Label>)
    requires forall i :: 0 <= i < |labels| ==> !labels[i].SourceBegin?
    ensures SourceCalls(labels) == 0
  {
    if labels != [] {
      NoCalls(labels[..|labels| - 1]);
    }
  }

  lemma MissCallsNothing(id: nat, key: CacheKey)
    ensures SourceCalls(Miss(id, key)) == 0
  {
    NoCalls(Miss(id, key));
  }

  lemma ReadingCallsOnce(id: nat)
    ensures SourceCalls(ReadSourceOnce(id)) == 1
  {
    var labels := ReadSourceOnce(id);
    assert labels[..2] == [VersionedPeek(id), SourceBegin(id)] && labels[..2][..1] == [VersionedPeek(id)];
    NoCalls([VersionedPeek(id)]);
  }

  lemma OpeningCallsOnce(id: nat, key: CacheKey)
    ensures SourceCalls(OpenWindow(id, key)) == 1
  {
    MissCallsNothing(id, key);
    ReadingCallsOnce(id);
    SourceCallsAdd(Miss(id, key), ReadSourceOnce(id));
    SourceCallsAdd(Miss(id, key) + ReadSourceOnce(id), [SourceReturns(id)]);
    NoCalls([SourceReturns(id)]);
  }

  lemma OpeningIsPlain(id: nat, key: CacheKey, keys: set<CacheKey>)
    requires key in keys
    ensures AllPlain(OpenWindow(id, key), keys)
  {
  }

  lemma {:induction false} OpeningReaches(s: System, id: nat, key: CacheKey, keys: set<CacheKey>)
    requires CanOpen(s, id, key) && key in keys
    ensures Reaches(s, Opened(s, id, key), keys, 1)
  {
    WindowOpens(s, id, key);
    OpeningCallsOnce(id, key);
    OpeningIsPlain(id, key, keys);
    ByLabels(s, OpenWindow(id, key), Opened(s, id, key), keys, 1);
  }

  lemma {:induction false} ByLabels(s: System, labels: seq<Label>, t: System, keys: set<CacheKey>, calls: nat)
    requires Executable(s, labels) && After(s, labels) == t && AllPlain(labels, keys) && SourceCalls(labels) == calls
    ensures Reaches(s, t, keys, calls)
  {
    var states := RunsArePaths(s, labels);
    assert Leads(s, states, labels, t, keys, calls);
  }

  // ----- The end of a window -----

  /** The call leads for the key and is about to fill with the source's configuration and the token. */
  predicate AboutToFill(s: System, id: nat, key: CacheKey, token: string) {
    && key in s.flight.loads && s.flight.loads[key] == id && key in s.source
    && id in s.flight.calls && s.flight.calls[id] == Call(key, Outcome(s.source[key], None), true)
    && id in s.flight.loaders && s.flight.loaders[id].key == key
    && AtStage(s.flight.loaders[id].phase, Filling) && s.flight.loaders[id].phase.lead.token == token
  }

  function CloseWindow(id: nat, now: Time): seq<Label> {
    [TryFill(id, now), Release(id)]
  }

  /** The state after the fill, whether it lands or not, and the release. */
  function Closed(s: System, id: nat, key: CacheKey, token: string): System
    requires AboutToFill(s, id, key, token)
  {
    var lands := FillLands(s.cache, token);
    s.(cache := FillLocked(s.cache, key, s.source[key], s.now, token),
       flight := CloseCall(Move(s.flight, id, Leading(Releasing)), id),
       history := if lands then Mutated(s.history).(filled := s.history.filled + [key]) else s.history)
  }

  lemma FillEnds(s: System, id: nat, key: CacheKey, token: string)
    requires AboutToFill(s, id, key, token)
    ensures Enabled(s, TryFill(id, s.now)) && Enabled(Next(s, TryFill(id, s.now)), Release(id))
    ensures Next(Next(s, TryFill(id, s.now)), Release(id)) == Closed(s, id, key, token)
  {
    var filled := Next(s, TryFill(id, s.now));
    assert filled.flight == Move(s.flight, id, Leading(Releasing));
  }

  lemma {:induction false} WindowCloses(s: System, id: nat, key: CacheKey, token: string)
    requires AboutToFill(s, id, key, token)
    ensures Executable(s, CloseWindow(id, s.now)) && After(s, CloseWindow(id, s.now)) == Closed(s, id, key, token)
  {
    FillEnds(s, id, key, token);
    OneStep(Next(s, TryFill(id, s.now)), Release(id));
    StepFirst(s, TryFill(id, s.now), [Release(id)]);
    assert [TryFill(id, s.now)] + [Release(id)] == CloseWindow(id, s.now);
  }

  lemma {:induction false} ClosingReaches(s: System, id: nat, key: CacheKey, token: string, keys: set<CacheKey>)
    requires AboutToFill(s, id, key, token)
    ensures Reaches(s, Closed(s, id, key, token), keys, 0)
  {
    WindowCloses(s, id, key, token);
    NoCalls(CloseWindow(id, s.now));
    ByLabels(s, CloseWindow(id, s.now), Closed(s, id, key, token), keys, 0);
  }

  // ----- One round -----

  /** No call has a number from the bound on. */
  predicate Below(f: Flight, bound: nat) {
    (forall id :: id in f.loaders ==> id < bound) && (forall id :: id in f.calls ==> id < bound)
  }

  /** Every leading call is about to fill with the token, and numbers from the bound on are unused. */
  predicate Windows(s: System, bound: nat, token: string) {
    && Below(s.flight, bound)
    && forall key :: key in s.flight.loads ==> AboutToFill(s, s.flight.loads[key], key, token)
  }

  predicate SameWorld(s: System, t: System) {
    t.cache == s.cache && t.now == s.now && t.source == s.source
  }

  lemma OpenedKeepsOthers(s: System, id: nat, key: CacheKey, p: nat, other: CacheKey, token: string)
    requires CanOpen(s, id, key) && AboutToFill(s, p, other, token)
    ensures AboutToFill(Opened(s, id, key), p, other, token)
  {
  }

  lemma OpenedIsAboutToFill(s: System, id: nat, key: CacheKey)
    requires CanOpen(s, id, key)
    ensures AboutToFill(Opened(s, id, key), id, key, Token(s.cache.version))
  {
  }

  lemma OneMoreWindow(s: System, bound: nat, key: CacheKey, token: string)
    requires Windows(s, bound, token) && token == Token(s.cache.version)
    requires key !in s.flight.loads && key !in s.cache.entries && key in s.source
    ensures CanOpen(s, bound, key) && Windows(Opened(s, bound, key), bound + 1, token)
  {
    var t := Opened(s, bound, key);
    forall other | other in t.flight.loads
      ensures AboutToFill(t, t.flight.loads[other], other, token)
    {
      if other == key {
        OpenedIsAboutToFill(s, bound, key);
      } else {
        OpenedKeepsOthers(s, bound, key, s.flight.loads[other], other, token);
      }
    }
  }

  lemma {:induction false} OpenOne(s: System, key: CacheKey, bound: nat, token: string, keys: set<CacheKey>)
    returns (t: System)
    requires Windows(s, bound, token) && token == Token(s.cache.version) && key in keys
    requires key !in s.flight.loads && key !in s.cache.entries && key in s.source
    ensures Windows(t, bound + 1, token) && SameWorld(s, t)
    ensures t.flight.loads == s.flight.loads[key := bound]
    ensures Reaches(s, t, keys, 1)
  {
    OneMoreWindow(s, bound, key, token);
    OpeningReaches(s, bound, key, keys);
    t := Opened(s, bound, key);
  }

  /** The keys may still be opened with the current token. */
  predicate CanOpenAll(s: System, todo: set<CacheKey>, token: string) {
    && token == Token(s.cache.version)
    && forall key :: key in todo ==> key !in s.flight.loads && key !in s.cache.entries && key in s.source
  }

  /** All the keys are loaded, and their calls are about to fill. */
  lemma {:induction false} OpenAll(s: System, todo: set<CacheKey>, bound: nat, token: string, keys: set<CacheKey>)
    returns (t: System, next: nat)
    requires Windows(s, bound, token) && CanOpenAll(s, todo, token) && todo <= keys
    ensures Windows(t, next, token) && SameWorld(s, t)
    ensures forall key :: key in s.flight.loads || key in todo ==> key in t.flight.loads
    ensures Reaches(s, t, keys, |todo|)
    decreases |todo|
  {
    if todo == {} {
      Stay(s, keys);
      return s, bound;
    }
    var key :| key in todo;
    var first := OpenOne(s, key, bound, token, keys);
    var others := todo - {key};
    t, next := OpenAll(first, others, bound + 1, token, keys);
    Chain(s, first, t, keys, 1, |others|);
  }

  lemma ClosedKeepsOthers(s: System, id: nat, key: CacheKey, token: string, p: nat, other: CacheKey)
    requires AboutToFill(s, id, key, token) && AboutToFill(s, p, other, token) && other != key
    ensures AboutToFill(Closed(s, id, key, token), p, other, token)
  {
  }

  lemma OneFewerWindow(s: System, bound: nat, key: CacheKey, token: string)
    requires Windows(s, bound, token) && key in s.flight.loads
    ensures AboutToFill(s, s.flight.loads[key], key, token)
    ensures
      var t := Closed(s, s.flight.loads[key], key, token);
      Windows(t, bound, token) && t.flight.loads == s.flight.loads - {key}
  {
    var id := s.flight.loads[key];
    var t := Closed(s, id, key, token);
    forall other | other in t.flight.loads
      ensures AboutToFill(t, t.flight.loads[other], other, token)
    {
      ClosedKeepsOthers(s, id, key, token, s.flight.loads[other], other);
    }
  }

  lemma {:induction false} CloseOne(s: System, key: CacheKey, bound: nat, token: string, keys: set<CacheKey>)
    returns (t: System)
    requires Windows(s, bound, token) && !FillLands(s.cache, token) && key in s.flight.loads
    ensures Windows(t, bound, token) && SameWorld(s, t)
    ensures t.flight.loads.Keys == s.flight.loads.Keys - {key}
    ensures Reaches(s, t, keys, 0)
  {
    OneFewerWindow(s, bound, key, token);
    ClosingReaches(s, s.flight.loads[key], key, token, keys);
    t := Closed(s, s.flight.loads[key], key, token);
  }

  /** Windows whose token is no longer current all close without a fill. */
  lemma {:induction false} CloseAll(s: System, bound: nat, token: string, keys: set<CacheKey>) returns (t: System)
    requires Windows(s, bound, token) && !FillLands(s.cache, token)
    ensures Below(t.flight, bound) && t.flight.loads == map[] && SameWorld(s, t)
    ensures Reaches(s, t, keys, 0)
    decreases |s.flight.loads.Keys|
  {
    if s.flight.loads.Keys == {} {
      Stay(s, keys);
      return s;
    }
    var key :| key in s.flight.loads.Keys;
    var first := CloseOne(s, key, bound, token, keys);
    t := CloseAll(first, bound, token, keys);
    Chain(s, first, t, keys, 0, 0);
  }

  lemma NextTokenDiffers(version: Version)
    ensures Token(Bump(version)) != Token(version)
  {
    TokensIdentifyVersions(Bump(version), version);
  }

  /** The first fill lands, and makes every other window's token stale. */
  lemma {:induction false} CloseFirst(s: System, bound: nat, key: CacheKey, keys: set<CacheKey>) returns (t: System)
    requires Windows(s, bound, Token(s.cache.version)) && key in s.flight.loads
    ensures Windows(t, bound, Token(s.cache.version)) && !FillLands(t.cache, Token(s.cache.version))
    ensures t.cache.entries.Keys == s.cache.entries.Keys + {key} && t.source == s.source
    ensures Reaches(s, t, keys, 0)
  {
    OneFewerWindow(s, bound, key, Token(s.cache.version));
    ClosingReaches(s, s.flight.loads[key], key, Token(s.cache.version), keys);
    NextTokenDiffers(s.cache.version);
    t := Closed(s, s.flight.loads[key], key, Token(s.cache.version));
  }

  /** No call is under way, and the keys are in the source and not in the cache. */
  predicate Ready(s: System, todo: set<CacheKey>, bound: nat) {
    s.flight.loads == map[] && Below(s.flight, bound) && todo <= s.source.Keys && todo !! s.cache.entries.Keys
  }

  /** Every remaining key has been loaded and the fill of one has landed. */
  lemma {:induction false} HalfRound(s: System, todo: set<CacheKey>, bound: nat, key: CacheKey, keys: set<CacheKey>)
    returns (t: System, next: nat)
    requires Ready(s, todo, bound) && key in todo && todo <= keys
    ensures Windows(t, next, Token(s.cache.version)) && !FillLands(t.cache, Token(s.cache.version))
    ensures t.cache.entries.Keys == s.cache.entries.Keys + {key} && t.source == s.source
    ensures Reaches(s, t, keys, |todo|)
  {
    var loading;
    loading, next := OpenAll(s, todo, bound, Token(s.cache.version), keys);
    t := CloseFirst(loading, next, key, keys);
    Chain(s, loading, t, keys, |todo|, 0);
  }

  /** A round loads every remaining key once and leaves all but one of them uncached. */
  lemma {:induction false} Round(s: System, todo: set<CacheKey>, bound: nat, key: CacheKey, keys: set<CacheKey>)
    returns (t: System, next: nat)
    requires Ready(s, todo, bound) && key in todo && todo <= keys
    ensures Ready(t, todo - {key}, next) && Reaches(s, t, keys, |todo|)
  {
    var landed;
    landed, next := HalfRound(s, todo, bound, key, keys);
    t := CloseAll(landed, next, Token(s.cache.version), keys);
    Chain(s, landed, t, keys, |todo|, 0);
  }

  function Triangle(n: nat): nat {
    if n == 0 then 0 else n + Triangle(n - 1)
  }

  lemma {:induction false} TriangleIsHalf(n: nat)
    ensures Triangle(n) == n * (n + 1) / 2
  {
    if n > 0 {
      TriangleIsHalf(n - 1);
      assert n * (n + 1) == (n - 1) * n + 2 * n;
    }
  }

  lemma {:induction false} Rounds(s: System, todo: set<CacheKey>, bound: nat, keys: set<CacheKey>) returns (t: System)
    requires Ready(s, todo, bound) && todo <= keys
    ensures Reaches(s, t, keys, Triangle(|todo|))
    decreases |todo|
  {
    if todo == {} {
      Stay(s, keys);
      return s;
    }
    var key :| key in todo;
    var rest, next := Round(s, todo, bound, key, keys);
    t := Rounds(rest, todo - {key}, next, keys);
    Chain(s, rest, t, keys, |todo|, Triangle(|todo| - 1));
  }

  /** For any set of keys, a quiet run from an empty cache makes as many source loads as the bound allows. */
  lemma {:induction false} SourceLoadBoundIsReached(
    keys: set<CacheKey>, source: map<CacheKey, ContainerConfig>, ttl: Time, now: Time
  )
    requires keys <= source.Keys
    ensures exists labels ::
      && Executable(Initial(EmptyCache(ttl), now, source), labels)
      && AlwaysQuiet(Initial(EmptyCache(ttl), now, source), labels, keys)
      && SourceCalls(labels) == |keys| * (|keys| + 1) / 2
  {
    var s := Initial(EmptyCache(ttl), now, source);
    var t := Rounds(s, keys, 0, keys);
    var states, labels :| Leads(s, states, labels, t, keys, Triangle(|keys|));
    PathsAreRuns(states, labels);
    PlainIsQuiet(s, labels, keys);
    TriangleIsHalf(|keys|);
  }
}
