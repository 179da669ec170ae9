/**
 Who can reach which mutable Values map. Maps live in a heap; the cache, lookups, pending
 calls and opened containers hold some of them, and everything ever handed to or received
 from callers, sources, naming services, key builders and backends is outside. Outside
 code may write the maps it can reach at any time.
 */
module Ownership {
  import opened Wrappers
  import opened ConfigTypes

  type Ref = nat
  type Contents = map<string, string>

  /** A configuration struct: its Values field is a reference, or nil. */
  datatype Config = Config(backend: string, tenantMode: TenantMode, values: Option<Ref>)

  /** Places of the library that hold a configuration; Reading is the entry a lookup captured under the read lock. */
  datatype Holder = Cached(key: CacheKey) | Reading(lookup: nat) | Pending(call: nat) | Opened(container: nat)

  /**
   Whose map it is. Load assigns a source's configuration to the call as it comes: Answered
   until the clone that follows a success, Failed when call.err is set and no clone follows.
   Shown is a container's configuration that a naming service has received.
   */
  datatype Custody = Own | Answered | Failed | Shown

  datatype Held = Held(config: Config, custody: Custody)

  datatype State = State(heap: map<Ref, Contents>, held: map<Holder, Held>, outside: set<Ref>)

  /** copy is the reference of the map that a clone in the step creates. */
  datatype Label =
    /** Outside code creates or writes a map. */
    | OutsideAlloc(copy: Ref, contents: Contents)
    | OutsideWrite(ref: Ref, contents: Contents)
    /** Set clones what it is given and stores the clone. */
    | SetStores(key: CacheKey, config: Config, copy: Ref)
    /** GetWithVersion captures an entry, and clones it later, for a leader's call or for its caller. */
    | Capture(key: CacheKey, lookup: nat)
    | HitForCall(lookup: nat, call: nat, copy: Ref)
    | HitForCaller(lookup: nat, copy: Ref)
    /** The source's configuration enters the call; after a success it is cloned in a step of its own. */
    | SourceReturns(call: nat, config: Config, failed: bool)
    | CloneAnswer(call: nat, copy: Ref)
    /** SetIfVersion clones the call's configuration and stores the clone. */
    | Fill(call: nat, key: CacheKey, copy: Ref)
    /** Open clones what Load returned. */
    | OpenContainer(container: nat, config: Config, copy: Ref)
    /** A leader or waiter returns, or Configuration or a request is served. */
    | HandOut(from: Holder, copy: Ref)
    /** The naming service receives the container's own configuration; it may keep and write the map. */
    | Show(container: nat)
    /** Expiry, sweep, deletion, or the end of a lookup, call or container. */
    | Drop(holder: Holder)

  function Initial(): State {
    State(map[], map[], {})
  }

  predicate FromOutside(s: State, config: Config) {
    config.values.Some? ==> config.values.value in s.outside
  }

  predicate Enabled(s: State, l: Label) {
    match l
    case OutsideAlloc(copy, _) => copy !in s.heap
    case OutsideWrite(ref, _) => ref in s.outside
    case SetStores(_, config, copy) => copy !in s.heap && FromOutside(s, config)
    case Capture(key, _) => Cached(key) in s.held
    case HitForCall(lookup, call, copy) => copy !in s.heap && Reading(lookup) in s.held && Pending(call) !in s.held
    case HitForCaller(lookup, copy) => copy !in s.heap && Reading(lookup) in s.held
    case SourceReturns(call, config, _) => Pending(call) !in s.held && FromOutside(s, config)
    case CloneAnswer(call, copy) =>
      copy !in s.heap && Pending(call) in s.held && s.held[Pending(call)].custody.Answered?
    case Fill(call, _, copy) => copy !in s.heap && Pending(call) in s.held && s.held[Pending(call)].custody.Own?
    case OpenContainer(container, config, copy) =>
      copy !in s.heap && Opened(container) !in s.held && FromOutside(s, config)
    case HandOut(from, copy) =>
      copy !in s.heap && (from.Pending? || from.Opened?) && from in s.held && !s.held[from].custody.Answered?
    case Show(container) => Opened(container) in s.held
    case Drop(_) => true
  }

  /** ContainerConfig.Clone: a new map with the same contents; nil stays nil. */
  function Clone(config: Config, copy: Ref): Config {
    if config.values.Some? then config.(values := Some(copy)) else config
  }

  function CloneHeap(heap: map<Ref, Contents>, config: Config, copy: Ref): map<Ref, Contents> {
    if config.values.Some? && config.values.value in heap then heap[copy := heap[config.values.value]] else heap
  }

  function CloneInto(s: State, config: Config, copy: Ref, to: Holder): State {
    s.(heap := CloneHeap(s.heap, config, copy), held := s.held[to := Held(Clone(config, copy), Own)])
  }

  function CloneOut(s: State, config: Config, copy: Ref): State {
    s.(heap := CloneHeap(s.heap, config, copy), outside := s.outside + if config.values.Some? then {copy} else {})
  }

  function Release(s: State, holder: Holder): State {
    s.(held := s.held - {holder})
  }

  function ShowOutside(s: State, holder: Holder): State
    requires holder in s.held
  {
    var config := s.held[holder].config;
    s.(held := s.held[holder := Held(config, Shown)],
       outside := s.outside + if config.values.Some? then {config.values.value} else {})
  }

  function Next(s: State, l: Label): State
    requires Enabled(s, l)
  {
    match l
    case OutsideAlloc(copy, contents) => s.(heap := s.heap[copy := contents], outside := s.outside + {copy})
    case OutsideWrite(ref, contents) => s.(heap := s.heap[ref := contents])
    case SetStores(key, config, copy) => CloneInto(s, config, copy, Cached(key))
    case Capture(key, lookup) => s.(held := s.held[Reading(lookup) := s.held[Cached(key)]])
    case HitForCall(lookup, call, copy) =>
      Release(CloneInto(s, s.held[Reading(lookup)].config, copy, Pending(call)), Reading(lookup))
    case HitForCaller(lookup, copy) => Release(CloneOut(s, s.held[Reading(lookup)].config, copy), Reading(lookup))
    case SourceReturns(call, config, failed) =>
      s.(held := s.held[Pending(call) := Held(config, if failed then Failed else Answered)])
    case CloneAnswer(call, copy) => CloneInto(s, s.held[Pending(call)].config, copy, Pending(call))
    case Fill(call, key, copy) => CloneInto(s, s.held[Pending(call)].config, copy, Cached(key))
    case OpenContainer(container, config, copy) => CloneInto(s, config, copy, Opened(container))
    case HandOut(from, copy) => CloneOut(s, s.held[from].config, copy)
    case Show(container) => ShowOutside(s, Opened(container))
    case Drop(holder) => Release(s, holder)
  }

  // ----- What the library holds is its own -----

  predicate FitsHolder(h: Holder, custody: Custody) {
    match h
    case Cached(_) => custody.Own?
    case Reading(_) => custody.Own?
    case Pending(_) => !custody.Shown?
    case Opened(_) => custody.Own? || custody.Shown?
  }

  /** Outside code can reach the map. */
  predicate Shares(s: State, h: Holder) {
    h in s.held && s.held[h].config.values.Some? && s.held[h].config.values.value in s.outside
  }

  /** The map exists, and outside code can reach it exactly when it is not the library's own. */
  predicate WellKept(s: State, h: Holder)
    requires h in s.held
  {
    && FitsHolder(h, s.held[h].custody)
    && (s.held[h].config.values.Some? ==>
          s.held[h].config.values.value in s.heap && (Shares(s, h) <==> !s.held[h].custody.Own?))
  }

  /** A lookup shares its entry with the cache or with other lookups; nothing else shares its own map. */
  predicate MayAlias(h: Holder, k: Holder) {
    (h.Reading? && (k.Reading? || k.Cached?)) || (h.Cached? && k.Reading?)
  }

  predicate Disjoint(s: State, h: Holder, k: Holder)
    requires h in s.held && k in s.held
  {
    var p, q := s.held[h], s.held[k];
    (h != k && p.custody.Own? && q.custody.Own? && p.config.values.Some? && p.config.values == q.config.values) ==>
      MayAlias(h, k)
  }

  predicate Owned(s: State) {
    && s.outside <= s.heap.Keys
    && (forall h :: h in s.held ==> WellKept(s, h))
    && (forall h, k :: h in s.held && k in s.held ==> Disjoint(s, h, k))
  }

  lemma CloneIntoKeepsOwned(s: State, config: Config, copy: Ref, to: Holder)
    requires Owned(s) && copy !in s.heap && (config.values.Some? ==> config.values.value in s.heap)
    ensures Owned(CloneInto(s, config, copy, to))
  {
    var t := CloneInto(s, config, copy, to);
    forall h | h in t.held
      ensures WellKept(t, h)
    {
      assert h != to ==> WellKept(s, h);
    }
    forall h, k | h in t.held && k in t.held
      ensures Disjoint(t, h, k)
    {
      assert h != to ==> WellKept(s, h);
      assert k != to ==> WellKept(s, k);
      assert h != to && k != to ==> Disjoint(s, h, k);
    }
  }

  lemma CloneOutKeepsOwned(s: State, config: Config, copy: Ref)
    requires Owned(s) && copy !in s.heap && (config.values.Some? ==> config.values.value in s.heap)
    ensures Owned(CloneOut(s, config, copy))
  {
    var t := CloneOut(s, config, copy);
    forall h | h in t.held
      ensures WellKept(t, h)
    {
      assert WellKept(s, h);
    }
    forall h, k | h in t.held && k in t.held
      ensures Disjoint(t, h, k)
    {
      assert Disjoint(s, h, k);
    }
  }

  lemma ReleaseKeepsOwned(s: State, holder: Holder)
    requires Owned(s)
    ensures Owned(Release(s, holder))
  {
    var t := Release(s, holder);
    forall h | h in t.held
      ensures WellKept(t, h)
    {
      assert WellKept(s, h);
    }
    forall h, k | h in t.held && k in t.held
      ensures Disjoint(t, h, k)
    {
      assert Disjoint(s, h, k);
    }
  }

  lemma ShowKeepsOwned(s: State, container: nat)
    requires Owned(s) && Opened(container) in s.held
    ensures Owned(ShowOutside(s, Opened(container)))
  {
    var t, shown := ShowOutside(s, Opened(container)), Opened(container);
    assert WellKept(s, shown);
    forall h | h in t.held
      ensures WellKept(t, h)
    {
      assert WellKept(s, h) && Disjoint(s, shown, h);
    }
    forall h, k | h in t.held && k in t.held
      ensures Disjoint(t, h, k)
    {
      assert Disjoint(s, h, k);
    }
  }

  lemma CaptureKeepsOwned(s: State, key: CacheKey, lookup: nat)
    requires Owned(s) && Cached(key) in s.held
    ensures Owned(Next(s, Capture(key, lookup)))
  {
    var t, captured := Next(s, Capture(key, lookup)), Cached(key);
    assert WellKept(s, captured);
    forall h | h in t.held
      ensures WellKept(t, h)
    {
      assert h in s.held ==> WellKept(s, h);
    }
    forall h, k | h in t.held && k in t.held
      ensures Disjoint(t, h, k)
    {
      var p := if h == Reading(lookup) then captured else h;
      var q := if k == Reading(lookup) then captured else k;
      assert Disjoint(s, p, q);
    }
  }

  lemma SourceKeepsOwned(s: State, call: nat, config: Config, failed: bool)
    requires Owned(s) && Enabled(s, SourceReturns(call, config, failed))
    ensures Owned(Next(s, SourceReturns(call, config, failed)))
  {
    var t := Next(s, SourceReturns(call, config, failed));
    forall h | h in t.held
      ensures WellKept(t, h)
    {
      assert h != Pending(call) ==> WellKept(s, h);
    }
    forall h, k | h in t.held && k in t.held
      ensures Disjoint(t, h, k)
    {
      assert h != Pending(call) && k != Pending(call) ==> Disjoint(s, h, k);
    }
  }

  lemma OutsideKeepsOwned(s: State, l: Label)
    requires Owned(s) && Enabled(s, l) && (l.OutsideAlloc? || l.OutsideWrite?)
    ensures Owned(Next(s, l))
  {
    var t := Next(s, l);
    forall h | h in t.held
      ensures WellKept(t, h)
    {
      assert WellKept(s, h);
    }
    forall h, k | h in t.held && k in t.held
      ensures Disjoint(t, h, k)
    {
      assert Disjoint(s, h, k);
    }
  }

  lemma {:induction false} OwnedNext(s: State, l: Label)
    requires Owned(s) && Enabled(s, l)
    ensures Owned(Next(s, l))
  {
    assert forall h :: h in s.held ==> WellKept(s, h);
    match l
    case OutsideAlloc(_, _) => OutsideKeepsOwned(s, l);
    case OutsideWrite(_, _) => OutsideKeepsOwned(s, l);
    case SetStores(key, config, copy) => CloneIntoKeepsOwned(s, config, copy, Cached(key));
    case Capture(key, lookup) => CaptureKeepsOwned(s, key, lookup);
    case HitForCall(lookup, call, copy) =>
      CloneIntoKeepsOwned(s, s.held[Reading(lookup)].config, copy, Pending(call));
      ReleaseKeepsOwned(CloneInto(s, s.held[Reading(lookup)].config, copy, Pending(call)), Reading(lookup));
    case HitForCaller(lookup, copy) =>
      CloneOutKeepsOwned(s, s.held[Reading(lookup)].config, copy);
      ReleaseKeepsOwned(CloneOut(s, s.held[Reading(lookup)].config, copy), Reading(lookup));
    case SourceReturns(call, config, failed) => SourceKeepsOwned(s, call, config, failed);
    case CloneAnswer(call, copy) => CloneIntoKeepsOwned(s, s.held[Pending(call)].config, copy, Pending(call));
    case Fill(call, key, copy) => CloneIntoKeepsOwned(s, s.held[Pending(call)].config, copy, Cached(key));
    case OpenContainer(container, config, copy) => CloneIntoKeepsOwned(s, config, copy, Opened(container));
    case HandOut(from, copy) => CloneOutKeepsOwned(s, s.held[from].config, copy);
    case Show(container) => ShowKeepsOwned(s, container);
    case Drop(holder) => ReleaseKeepsOwned(s, holder);
  }

  predicate Executable(s: State, labels: seq<Label>)
    decreases |labels|, 0
  {
    labels == [] ||
    var front := labels[..|labels| - 1];
    Executable(s, front) && Enabled(After(s, front), labels[|labels| - 1])
  }

  function After(s: State, labels: seq<Label>): State
    requires Executable(s, labels)
    decreases |labels|, 1
  {
    if labels == [] then s else Next(After(s, labels[..|labels| - 1]), labels[|labels| - 1])
  }

  lemma {:induction false} OwnedAlways(s: State, labels: seq<Label>)
    requires Owned(s) && Executable(s, labels)
    ensures Owned(After(s, labels))
  {
    if labels != [] {
      var front := labels[..|labels| - 1];
      OwnedAlways(s, front);
      OwnedNext(After(s, front), labels[|labels| - 1]);
    }
  }

  /** The step gives the holder another configuration, takes its own away, or shows it. */
  predicate Concerns(l: Label, h: Holder) {
    match l
    case SetStores(key, _, _) => h == Cached(key)
    case Capture(_, lookup) => h == Reading(lookup)
    case HitForCall(lookup, call, _) => h == Reading(lookup) || h == Pending(call)
    case HitForCaller(lookup, _) => h == Reading(lookup)
    case SourceReturns(call, _, _) => h == Pending(call)
    case CloneAnswer(call, _) => h == Pending(call)
    case Fill(_, key, _) => h == Cached(key)
    case OpenContainer(container, _, _) => h == Opened(container)
    case Show(container) => h == Opened(container)
    case Drop(holder) => h == holder
    case _ => false
  }

  lemma UnconcernedStep(s: State, l: Label, h: Holder)
    requires Enabled(s, l) && h in s.held && !Concerns(l, h)
    ensures h in Next(s, l).held && Next(s, l).held[h] == s.held[h]
  {
  }

  /** The last step of the run that concerned the holder. */
  function LastConcern(labels: seq<Label>, h: Holder): Option<Label> {
    if labels == [] then None
    else if Concerns(labels[|labels| - 1], h) then Some(labels[|labels| - 1])
    else LastConcern(labels[..|labels| - 1], h)
  }

  /** What that step left the holder with. */
  function CustodyAfter(l: Label): Custody {
    if l.SourceReturns? then (if l.failed then Failed else Answered) else if l.Show? then Shown else Own
  }

  lemma ConcernedStep(s: State, l: Label, h: Holder)
    requires Owned(s) && Enabled(s, l) && Concerns(l, h) && h in Next(s, l).held
    ensures Next(s, l).held[h].custody == CustodyAfter(l)
  {
    if l.Capture? {
      assert WellKept(s, Cached(l.key));
    }
  }

  lemma {:induction false} CustodyFollowsTheRun(labels: seq<Label>, h: Holder)
    requires Executable(Initial(), labels) && h in After(Initial(), labels).held
    ensures LastConcern(labels, h).Some?
    ensures After(Initial(), labels).held[h].custody == CustodyAfter(LastConcern(labels, h).value)
  {
    if labels != [] {
      var front, l := labels[..|labels| - 1], labels[|labels| - 1];
      OwnedAlways(Initial(), front);
      if Concerns(l, h) {
        ConcernedStep(After(Initial(), front), l, h);
      } else {
        NothingAppearsUnconcerned(After(Initial(), front), l, h);
        CustodyFollowsTheRun(front, h);
        UnconcernedStep(After(Initial(), front), l, h);
      }
    }
  }

  lemma NothingAppearsUnconcerned(s: State, l: Label, h: Holder)
    requires Enabled(s, l) && h in Next(s, l).held && !Concerns(l, h)
    ensures h in s.held
  {
  }

  /**
   Which maps are shared, in every reachable state: never a cached one or one a lookup has
   captured; a call's, once the clone of a success is made, exactly when its source failed
   and returned a map all the same; a container's exactly when a naming service received it.
   */
  lemma {:induction false} SharingIsExact(labels: seq<Label>, h: Holder)
    requires Executable(Initial(), labels) && h in After(Initial(), labels).held
    ensures LastConcern(labels, h).Some?
    ensures
      var s, last := After(Initial(), labels), LastConcern(labels, h).value;
      var hasMap := s.held[h].config.values.Some?;
      match h
      case Cached(_) => !Shares(s, h)
      case Reading(_) => !Shares(s, h)
      case Pending(_) =>
        || (last.SourceReturns? && !last.failed)
        || (Shares(s, h) <==> last.SourceReturns? && last.failed && hasMap)
      case Opened(_) => Shares(s, h) <==> last.Show? && hasMap
  {
    OwnedAlways(Initial(), labels);
    CustodyFollowsTheRun(labels, h);
    assert WellKept(After(Initial(), labels), h);
  }

  // ----- Snapshots -----

  /** A configuration as the value it denotes now. */
  function ValueOf(heap: map<Ref, Contents>, config: Config): ContainerConfig {
    ContainerConfig(config.backend, config.tenantMode,
      if config.values.Some? && config.values.value in heap then heap[config.values.value] else map[])
  }

  function Value(s: State, h: Holder): ContainerConfig
    requires h in s.held
  {
    ValueOf(s.heap, s.held[h].config)
  }

  /** What the holders of maps of their own hold, as values. */
  function View(s: State): map<Holder, ContainerConfig> {
    map h | h in s.held && s.held[h].custody.Own? :: ValueOf(s.heap, s.held[h].config)
  }

  /** The same steps on values; outside writes do not appear. */
  function ValueNext(view: map<Holder, ContainerConfig>, l: Label, received: ContainerConfig)
    : map<Holder, ContainerConfig>
  {
    match l
    case SetStores(key, _, _) => view[Cached(key) := received]
    case Capture(key, lookup) => if Cached(key) in view then view[Reading(lookup) := view[Cached(key)]] else view
    case HitForCall(lookup, call, _) =>
      if Reading(lookup) in view then view[Pending(call) := view[Reading(lookup)]] - {Reading(lookup)} else view
    case HitForCaller(lookup, _) => view - {Reading(lookup)}
    case CloneAnswer(call, _) => view[Pending(call) := received]
    case Fill(call, key, _) => if Pending(call) in view then view[Cached(key) := view[Pending(call)]] else view
    case OpenContainer(container, _, _) => view[Opened(container) := received]
    case Show(container) => view - {Opened(container)}
    case Drop(holder) => view - {holder}
    case _ => view
  }

  /** The value of the configuration a step clones in from outside. */
  function Received(s: State, l: Label): ContainerConfig {
    if l.SetStores? || l.OpenContainer? then ValueOf(s.heap, l.config)
    else if l.CloneAnswer? && Pending(l.call) in s.held then Value(s, Pending(l.call))
    else ContainerConfig("", TenantScoped, map[])
  }

  /** A heap that differs only in maps that are nobody's own. */
  lemma UnownedMapsDoNotMatter(s: State, heap: map<Ref, Contents>)
    requires forall h :: h in s.held && s.held[h].custody.Own? && s.held[h].config.values.Some? ==>
      var ref := s.held[h].config.values.value;
      ref in heap && ref in s.heap && heap[ref] == s.heap[ref]
    ensures View(s.(heap := heap)) == View(s)
  {
  }

  lemma CloneDenotesTheSame(s: State, config: Config, copy: Ref)
    requires Owned(s) && copy !in s.heap && (config.values.Some? ==> config.values.value in s.heap)
    ensures ValueOf(CloneHeap(s.heap, config, copy), Clone(config, copy)) == ValueOf(s.heap, config)
    ensures View(s.(heap := CloneHeap(s.heap, config, copy))) == View(s)
  {
    forall h | h in s.held && s.held[h].config.values.Some?
      ensures s.held[h].config.values.value in s.heap
    {
      assert WellKept(s, h);
    }
    UnownedMapsDoNotMatter(s, CloneHeap(s.heap, config, copy));
  }

  lemma CloneIntoView(s: State, config: Config, copy: Ref, to: Holder)
    requires Owned(s) && copy !in s.heap && (config.values.Some? ==> config.values.value in s.heap)
    ensures View(CloneInto(s, config, copy, to)) == View(s)[to := ValueOf(s.heap, config)]
  {
    CloneDenotesTheSame(s, config, copy);
    var t := s.(heap := CloneHeap(s.heap, config, copy));
    assert View(CloneInto(s, config, copy, to)) == View(t)[to := ValueOf(t.heap, Clone(config, copy))];
  }

  lemma CloneOutView(s: State, config: Config, copy: Ref)
    requires Owned(s) && copy !in s.heap && (config.values.Some? ==> config.values.value in s.heap)
    ensures View(CloneOut(s, config, copy)) == View(s)
  {
    CloneDenotesTheSame(s, config, copy);
    assert View(CloneOut(s, config, copy)) == View(s.(heap := CloneHeap(s.heap, config, copy)));
  }

  lemma ReleaseView(s: State, holder: Holder)
    ensures View(Release(s, holder)) == View(s) - {holder}
  {
  }

  lemma OutsideView(s: State, l: Label)
    requires Owned(s) && Enabled(s, l) && (l.OutsideAlloc? || l.OutsideWrite?)
    ensures View(Next(s, l)) == View(s)
  {
    var heap := Next(s, l).heap;
    forall h | h in s.held && s.held[h].custody.Own? && s.held[h].config.values.Some?
      ensures
        var ref := s.held[h].config.values.value;
        ref in heap && ref in s.heap && heap[ref] == s.heap[ref]
    {
      assert WellKept(s, h);
    }
    UnownedMapsDoNotMatter(s, heap);
    assert View(Next(s, l)) == View(s.(heap := heap));
  }

  lemma HitView(s: State, lookup: nat, call: nat, copy: Ref)
    requires Owned(s) && Enabled(s, HitForCall(lookup, call, copy))
    ensures View(Next(s, HitForCall(lookup, call, copy))) ==
      View(s)[Pending(call) := Value(s, Reading(lookup))] - {Reading(lookup)}
  {
    assert WellKept(s, Reading(lookup));
    CloneIntoView(s, s.held[Reading(lookup)].config, copy, Pending(call));
    ReleaseView(CloneInto(s, s.held[Reading(lookup)].config, copy, Pending(call)), Reading(lookup));
  }

  lemma HitOutView(s: State, lookup: nat, copy: Ref)
    requires Owned(s) && Enabled(s, HitForCaller(lookup, copy))
    ensures View(Next(s, HitForCaller(lookup, copy))) == View(s) - {Reading(lookup)}
  {
    assert WellKept(s, Reading(lookup));
    CloneOutView(s, s.held[Reading(lookup)].config, copy);
    ReleaseView(CloneOut(s, s.held[Reading(lookup)].config, copy), Reading(lookup));
  }

  lemma CaptureView(s: State, key: CacheKey, lookup: nat)
    requires Owned(s) && Enabled(s, Capture(key, lookup))
    ensures View(Next(s, Capture(key, lookup))) == View(s)[Reading(lookup) := Value(s, Cached(key))]
  {
    assert WellKept(s, Cached(key));
  }

  lemma SourceView(s: State, call: nat, config: Config, failed: bool)
    requires Enabled(s, SourceReturns(call, config, failed))
    ensures View(Next(s, SourceReturns(call, config, failed))) == View(s)
  {
  }

  lemma ShowView(s: State, container: nat)
    requires Enabled(s, Show(container))
    ensures View(Next(s, Show(container))) == View(s) - {Opened(container)}
  {
  }

  /** Each step changes the holders' values as the value-level step does, whatever outside code can reach. */
  lemma {:induction false} StepsAreValueSteps(s: State, l: Label)
    requires Owned(s) && Enabled(s, l)
    ensures View(Next(s, l)) == ValueNext(View(s), l, Received(s, l))
  {
    assert forall h :: h in s.held ==> WellKept(s, h);
    match l
    case OutsideAlloc(_, _) => OutsideView(s, l);
    case OutsideWrite(_, _) => OutsideView(s, l);
    case SetStores(key, config, copy) => CloneIntoView(s, config, copy, Cached(key));
    case Capture(key, lookup) => CaptureView(s, key, lookup);
    case HitForCall(lookup, call, copy) => HitView(s, lookup, call, copy);
    case HitForCaller(lookup, copy) => HitOutView(s, lookup, copy);
    case SourceReturns(call, config, failed) => SourceView(s, call, config, failed);
    case CloneAnswer(call, copy) => CloneIntoView(s, s.held[Pending(call)].config, copy, Pending(call));
    case Fill(call, key, copy) => CloneIntoView(s, s.held[Pending(call)].config, copy, Cached(key));
    case OpenContainer(container, config, copy) => CloneIntoView(s, config, copy, Opened(container));
    case HandOut(from, copy) => CloneOutView(s, s.held[from].config, copy);
    case Show(container) => ShowView(s, container);
    case Drop(holder) => ReleaseView(s, holder);
  }

  function ValueAfter(s: State, labels: seq<Label>): map<Holder, ContainerConfig>
    requires Executable(s, labels)
    decreases |labels|
  {
    if labels == [] then View(s)
    else
      var front := labels[..|labels| - 1];
      ValueNext(ValueAfter(s, front), labels[|labels| - 1], Received(After(s, front), labels[|labels| - 1]))
  }

  /** Over every run, on the maps that are the library's own, references behave as values. */
  lemma {:induction false} SnapshotSemantics(s: State, labels: seq<Label>)
    requires Owned(s) && Executable(s, labels)
    ensures Owned(After(s, labels))
    ensures View(After(s, labels)) == ValueAfter(s, labels)
  {
    if labels != [] {
      var front, l := labels[..|labels| - 1], labels[|labels| - 1];
      SnapshotSemantics(s, front);
      OwnedNext(After(s, front), l);
      StepsAreValueSteps(After(s, front), l);
    }
  }

  predicate LeavesAlone(labels: seq<Label>, h: Holder) {
    forall i :: 0 <= i < |labels| ==> !Concerns(labels[i], h)
  }

  lemma {:induction false} UnconcernedRun(s: State, labels: seq<Label>, h: Holder)
    requires Executable(s, labels) && h in s.held && LeavesAlone(labels, h)
    ensures h in After(s, labels).held && After(s, labels).held[h] == s.held[h]
  {
    if labels != [] {
      var front := labels[..|labels| - 1];
      UnconcernedRun(s, front, h);
      UnconcernedStep(After(s, front), labels[|labels| - 1], h);
    }
  }

  /**
   What is the library's own does not change until it is replaced, dropped or shown, however
   often outside code, naming services included, writes the maps it can reach.
   */
  lemma {:induction false} HoldersKeepTheirSnapshot(s: State, labels: seq<Label>, h: Holder)
    requires Owned(s) && Executable(s, labels) && h in s.held && s.held[h].custody.Own? && LeavesAlone(labels, h)
    ensures h in After(s, labels).held && After(s, labels).held[h].custody.Own?
    ensures Value(After(s, labels), h) == Value(s, h)
  {
    if labels != [] {
      var front, l := labels[..|labels| - 1], labels[|labels| - 1];
      HoldersKeepTheirSnapshot(s, front, h);
      SnapshotSemantics(s, front);
      var before := After(s, front);
      StepsAreValueSteps(before, l);
      UnconcernedStep(before, l, h);
      assert h in View(before) && h in View(Next(before, l));
      assert View(Next(before, l))[h] == View(before)[h];
    }
  }

  /** A run that leaves the holder alone and yet changes what it denotes. */
  predicate Disturbs(s: State, labels: seq<Label>, h: Holder)
    requires h in s.held
  {
    && Executable(s, labels) && LeavesAlone(labels, h)
    && h in After(s, labels).held && Value(After(s, labels), h) != Value(s, h)
  }

  ghost predicate CanBeDisturbed(s: State, h: Holder)
    requires h in s.held
  {
    exists labels :: Disturbs(s, labels, h)
  }

  function Other(contents: Contents): (other: Contents)
    ensures other != contents
  {
    if "" in contents then map[] else map["" := ""]
  }

  lemma Extend(s: State, labels: seq<Label>, l: Label)
    requires Executable(s, labels) && Enabled(After(s, labels), l)
    ensures Executable(s, labels + [l]) && After(s, labels + [l]) == Next(After(s, labels), l)
  {
    assert (labels + [l])[..|labels|] == labels;
  }

  /**
   A snapshot can change behind its holder's back if and only if the holder shares it. For
   a settled call this is the failing source that returned a map; its waiters, each of
   which gets a clone of what the call denotes at that moment, can then be told different
   things. For a container it is having been shown to a naming service.
   */
  lemma {:induction false} SnapshotsBreakExactlyWhenShared(s: State, h: Holder)
    requires Owned(s) && h in s.held
    ensures CanBeDisturbed(s, h) <==> !s.held[h].custody.Own? && s.held[h].config.values.Some?
    ensures CanBeDisturbed(s, h) <==> Shares(s, h)
  {
    assert WellKept(s, h);
    if Shares(s, h) {
      var ref := s.held[h].config.values.value;
      var write := OutsideWrite(ref, Other(s.heap[ref]));
      Extend(s, [], write);
      assert Value(Next(s, write), h).values != Value(s, h).values;
      assert Disturbs(s, [] + [write], h);
    } else if labels :| Disturbs(s, labels, h) {
      if s.held[h].custody.Own? {
        HoldersKeepTheirSnapshot(s, labels, h);
      } else {
        UnconcernedRun(s, labels, h);
      }
    }
  }

  /** A container's snapshot changes in a run only if that very container was shown in it. */
  lemma {:induction false} OnlyItsOwnNamingServiceBreaksAContainer(s: State, labels: seq<Label>, container: nat)
    requires Owned(s) && Executable(s, labels)
    requires Opened(container) in s.held && s.held[Opened(container)].custody.Own?
    requires Drop(Opened(container)) !in labels
    requires Show(container) !in labels
    ensures Opened(container) in After(s, labels).held
    ensures Value(After(s, labels), Opened(container)) == Value(s, Opened(container))
  {
    NotReopened(s, labels, container);
    HoldersKeepTheirSnapshot(s, labels, Opened(container));
  }

  /** A container is not opened again while it is held. */
  lemma {:induction false} NotReopened(s: State, labels: seq<Label>, container: nat)
    requires Executable(s, labels) && Opened(container) in s.held
    requires Drop(Opened(container)) !in labels && Show(container) !in labels
    ensures LeavesAlone(labels, Opened(container))
  {
    if labels != [] {
      var front, l := labels[..|labels| - 1], labels[|labels| - 1];
      assert l in labels;
      NotReopened(s, front, container);
      UnconcernedRun(s, front, Opened(container));
    }
  }

  /**
   A naming service that writes the map it was shown changes the container's snapshot
   exactly when it writes something else, and changes no other map of the library's own.
   */
  lemma {:induction false} WritingNamingServiceBreaksSnapshots(s: State, container: nat, contents: Contents)
    requires Owned(s) && Opened(container) in s.held && s.held[Opened(container)].config.values.Some?
    ensures
      var h, ref := Opened(container), s.held[Opened(container)].config.values.value;
      var t := Next(s, Show(container));
      && ref in s.heap && Enabled(t, OutsideWrite(ref, contents))
      && var u := Next(t, OutsideWrite(ref, contents));
      && (Value(u, h) == Value(s, h) <==> contents == s.heap[ref])
      && View(u) == View(s) - {h}
  {
    assert WellKept(s, Opened(container));
    var ref, t := s.held[Opened(container)].config.values.value, Next(s, Show(container));
    OwnedNext(s, Show(container));
    StepsAreValueSteps(s, Show(container));
    StepsAreValueSteps(t, OutsideWrite(ref, contents));
    var u := Next(t, OutsideWrite(ref, contents));
    assert Value(u, Opened(container)).values == contents && Value(s, Opened(container)).values == s.heap[ref];
    assert contents == s.heap[ref] ==> u.heap == s.heap;
  }

  /** The clone that goes out denotes what is held, and writing it changes no map of the library's own. */
  lemma {:induction false} HandedOutCopiesAreDetached(s: State, from: Holder, copy: Ref, contents: Contents)
    requires Owned(s) && Enabled(s, HandOut(from, copy)) && s.held[from].config.values.Some?
    ensures
      var t := Next(s, HandOut(from, copy));
      && ValueOf(t.heap, Clone(s.held[from].config, copy)) == Value(s, from)
      && Enabled(t, OutsideWrite(copy, contents))
      && View(Next(t, OutsideWrite(copy, contents))) == View(s)
      && Value(Next(t, OutsideWrite(copy, contents)), from) == Value(s, from)
  {
    assert WellKept(s, from);
    var t := Next(s, HandOut(from, copy));
    CloneDenotesTheSame(s, s.held[from].config, copy);
    OwnedNext(s, HandOut(from, copy));
    StepsAreValueSteps(s, HandOut(from, copy));
    StepsAreValueSteps(t, OutsideWrite(copy, contents));
  }

  /** The contents a configuration's map has now; none for a nil map. */
  predicate Holds(s: State, config: Config, contents: Option<Contents>) {
    match config.values
    case None => contents == None
    case Some(ref) => ref in s.heap && contents == Some(s.heap[ref])
  }

  predicate SameStruct(a: Config, b: Config) {
    a.backend == b.backend && a.tenantMode == b.tenantMode && (a.values.Some? <==> b.values.Some?)
  }

  /** The step hands a clone of a captured entry, a settled call or a container to outside code. */
  predicate GivesOut(l: Label) {
    l.HitForCaller? || l.HandOut?
  }

  function GivenFrom(l: Label): Holder
    requires GivesOut(l)
  {
    match l
    case HitForCaller(lookup, _) => Reading(lookup)
    case HandOut(from, _) => from
  }

  /**
   What outside code receives, from a Get as from Load, Configuration or a request: the
   same backend and mode, nil for nil, and otherwise a map of its own, new to everybody,
   with the contents that the holder's map has at that moment.
   */
  lemma {:induction false} GivenClonesAreEqualAndNew(s: State, l: Label, contents: Option<Contents>)
    requires Owned(s) && Enabled(s, l) && GivesOut(l)
    requires Holds(s, s.held[GivenFrom(l)].config, contents)
    ensures
      var was, t := s.held[GivenFrom(l)].config, Next(s, l);
      var given := Clone(was, l.copy);
      && SameStruct(was, given) && Holds(t, given, contents)
      && (given.values.Some? ==> given.values.value in t.outside && given.values.value !in s.heap)
      && View(t) == if l.HitForCaller? then View(s) - {GivenFrom(l)} else View(s)
  {
    assert WellKept(s, GivenFrom(l));
    StepsAreValueSteps(s, l);
  }

  /**
   What the library takes in or passes on inside: after the step the holder has the same
   backend and mode, nil for nil, and otherwise a new map of its own with those contents.
   */
  lemma {:induction false} KeptClonesAreEqualAndNew(s: State, l: Label, contents: Option<Contents>)
    requires Owned(s) && Enabled(s, l)
    requires l.SetStores? || l.HitForCall? || l.CloneAnswer? || l.Fill? || l.OpenContainer?
    requires Holds(s, ClonedBy(s, l), contents)
    ensures
      var t, to := Next(s, l), KeptBy(l);
      && to in t.held && SameStruct(ClonedBy(s, l), t.held[to].config) && Holds(t, t.held[to].config, contents)
      && (contents.Some? ==> t.held[to].config.values.value !in s.heap && t.held[to].config.values.value !in t.outside)
  {
  }

  /** The configuration that a step which keeps a clone clones. */
  function ClonedBy(s: State, l: Label): Config
    requires Enabled(s, l) && (l.SetStores? || l.HitForCall? || l.CloneAnswer? || l.Fill? || l.OpenContainer?)
  {
    match l
    case SetStores(_, config, _) => config
    case HitForCall(lookup, _, _) => s.held[Reading(lookup)].config
    case CloneAnswer(call, _) => s.held[Pending(call)].config
    case Fill(call, _, _) => s.held[Pending(call)].config
    case OpenContainer(_, config, _) => config
  }

  /** The holder that keeps it. */
  function KeptBy(l: Label): Holder
    requires l.SetStores? || l.HitForCall? || l.CloneAnswer? || l.Fill? || l.OpenContainer?
  {
    match l
    case SetStores(key, _, _) => Cached(key)
    case HitForCall(_, call, _) => Pending(call)
    case CloneAnswer(call, _) => Pending(call)
    case Fill(_, key, _) => Cached(key)
    case OpenContainer(container, _, _) => Opened(container)
  }

  // ----- A failing source that returns a map -----

  /** The source fails and returns map 0; it writes the map between the returns of two waiters of the call. */
  function TwoWaiters(config: Config, first: Contents, second: Contents): seq<Label> {
    [OutsideAlloc(0, first), SourceReturns(0, config, true), HandOut(Pending(0), 1),
     OutsideWrite(0, second), HandOut(Pending(0), 2)]
  }

  /** One run in which two waiters of one call return different configurations. */
  lemma WaitersOfAFailedCallMayDiffer(backend: string, mode: TenantMode, first: Contents, second: Contents)
    requires first != second
    ensures
      var config := Config(backend, mode, Some(0));
      var labels := TwoWaiters(config, first, second);
      && Executable(Initial(), labels)
      && var s := After(Initial(), labels);
      && ValueOf(s.heap, Clone(config, 1)) == ContainerConfig(backend, mode, first)
      && ValueOf(s.heap, Clone(config, 2)) == ContainerConfig(backend, mode, second)
  {
    var config := Config(backend, mode, Some(0));
    var labels := TwoWaiters(config, first, second);
    assert labels == [] + [labels[0]] + [labels[1]] + [labels[2]] + [labels[3]] + [labels[4]];
    Extend(Initial(), [], labels[0]);
    Extend(Initial(), [] + [labels[0]], labels[1]);
    Extend(Initial(), [] + [labels[0]] + [labels[1]], labels[2]);
    Extend(Initial(), [] + [labels[0]] + [labels[1]] + [labels[2]], labels[3]);
    Extend(Initial(), [] + [labels[0]] + [labels[1]] + [labels[2]] + [labels[3]], labels[4]);
  }
}
